/** The meaning of SQL's `WHERE`, `ORDER BY … ASC` and `LIMIT … OFFSET …` over a list of rows. */
module Seqs {
  import opened Wrappers

  /** The elements of `s` that satisfy `p`, in their order in `s` (a `WHERE` clause). */
  function Filter<T(!new)>(s: seq<T>, p: T -> bool): (r: seq<T>)
    ensures |r| <= |s|
    ensures forall x :: x in r <==> x in s && p(x)
    decreases |s|
  {
    if s == [] then []
    else if p(s[0]) then [s[0]] + Filter(s[1..], p)
    else Filter(s[1..], p)
  }

  lemma {:induction false} FilterAppend<T(!new)>(a: seq<T>, b: seq<T>, p: T -> bool)
    ensures Filter(a + b, p) == Filter(a, p) + Filter(b, p)
    decreases |a|
  {
    if a == [] {
      assert a + b == b;
    } else {
      assert (a + b)[0] == a[0];
      assert (a + b)[1..] == a[1..] + b;
      FilterAppend(a[1..], b, p);
    }
  }

  /** Two predicates that agree on the elements of `s` select the same elements. */
  lemma {:induction false} FilterCongruent<T(!new)>(s: seq<T>, p: T -> bool, q: T -> bool)
    requires forall x :: x in s ==> p(x) == q(x)
    ensures Filter(s, p) == Filter(s, q)
    decreases |s|
  {
    if s != [] {
      FilterCongruent(s[1..], p, q);
    }
  }

  /** Selecting from a list whose keys are pairwise distinct leaves them pairwise distinct. */
  lemma {:induction false} FilterDistinct<T(!new)>(s: seq<T>, p: T -> bool, key: T -> int)
    requires forall i, j :: 0 <= i < j < |s| ==> key(s[i]) != key(s[j])
    ensures forall i, j :: 0 <= i < j < |Filter(s, p)| ==> key(Filter(s, p)[i]) != key(Filter(s, p)[j])
    decreases |s|
  {
    if s != [] {
      FilterDistinct(s[1..], p, key);
      var rest := Filter(s[1..], p);
      forall i | 0 <= i < |rest| ensures key(rest[i]) != key(s[0]) {
        assert rest[i] in s[1..];
        var k :| 0 <= k < |s[1..]| && s[1..][k] == rest[i];
        assert s[k + 1] == rest[i];
      }
      if p(s[0]) {
        var r := Filter(s, p);
        assert r == [s[0]] + rest;
        forall i, j | 0 <= i < j < |r| ensures key(r[i]) != key(r[j]) {
          assert r[j] == rest[j - 1];
          if i > 0 {
            assert r[i] == rest[i - 1];
            assert key(rest[i - 1]) != key(rest[j - 1]);
          } else {
            assert r[i] == s[0];
            assert key(rest[j - 1]) != key(s[0]);
          }
        }
      }
    }
  }

  /** A stronger predicate selects no more elements. */
  lemma {:induction false} FilterStronger<T(!new)>(s: seq<T>, p: T -> bool, q: T -> bool)
    requires forall x :: x in s && p(x) ==> q(x)
    ensures |Filter(s, p)| <= |Filter(s, q)|
    decreases |s|
  {
    if s != [] {
      FilterStronger(s[1..], p, q);
    }
  }

  /** A stronger predicate that rejects an element the weaker one selects selects strictly fewer. */
  lemma {:induction false} FilterStrictlyStronger<T(!new)>(s: seq<T>, p: T -> bool, q: T -> bool, w: T)
    requires forall x :: x in s && p(x) ==> q(x)
    requires forall x :: x in s && p(x) ==> x != w
    requires w in s && q(w)
    ensures |Filter(s, p)| < |Filter(s, q)|
    decreases |s|
  {
    if s[0] == w {
      FilterStronger(s[1..], p, q);
    } else {
      assert w in s[1..];
      FilterStrictlyStronger(s[1..], p, q, w);
    }
  }

  /** The elements of `s`, each transformed by `f` (`rows.map(…)`). */
  function Map<T, U>(s: seq<T>, f: T -> U): (r: seq<U>)
    ensures |r| == |s|
    ensures forall i :: 0 <= i < |s| ==> r[i] == f(s[i])
  {
    seq(|s|, i requires 0 <= i < |s| => f(s[i]))
  }

  /** Transforming the elements in a way the selection cannot see keeps the number selected. */
  lemma {:induction false} FilterMapLength<T(!new), U(!new)>(s: seq<T>, f: T -> U, p: T -> bool, q: U -> bool)
    requires forall x :: x in s ==> q(f(x)) == p(x)
    ensures |Filter(Map(s, f), q)| == |Filter(s, p)|
    decreases |s|
  {
    if s != [] {
      assert Map(s, f) == [f(s[0])] + Map(s[1..], f);
      FilterAppend([f(s[0])], Map(s[1..], f), q);
      assert s == [s[0]] + s[1..];
      FilterAppend([s[0]], s[1..], p);
      FilterMapLength(s[1..], f, p, q);
    }
  }

  /** `s` is in ascending order of `key`. */
  predicate SortedBy<T>(s: seq<T>, key: T -> real) {
    forall i, j :: 0 <= i < j < |s| ==> key(s[i]) <= key(s[j])
  }

  /** Inserts `x` after every element whose key is at most its own. */
  function InsertBy<T>(x: T, s: seq<T>, key: T -> real): seq<T>
    decreases |s|
  {
    if s == [] then [x]
    else if key(x) < key(s[0]) then [x] + s
    else [s[0]] + InsertBy(x, s[1..], key)
  }

  /** Every key in `InsertBy(x, s, key)` is at least `b` when `x`'s and all of `s`'s are. */
  lemma {:induction false} InsertByBounded<T>(x: T, s: seq<T>, key: T -> real, b: real)
    requires key(x) >= b
    requires forall i :: 0 <= i < |s| ==> key(s[i]) >= b
    ensures forall i :: 0 <= i < |InsertBy(x, s, key)| ==> key(InsertBy(x, s, key)[i]) >= b
    decreases |s|
  {
    if s != [] && key(x) >= key(s[0]) {
      InsertByBounded(x, s[1..], key, b);
      var t := InsertBy(x, s[1..], key);
      forall i | 0 <= i < |[s[0]] + t| ensures key(([s[0]] + t)[i]) >= b {
        if i > 0 { assert ([s[0]] + t)[i] == t[i - 1]; }
      }
    }
  }

  lemma {:induction false} InsertByPermutes<T>(x: T, s: seq<T>, key: T -> real)
    ensures multiset(InsertBy(x, s, key)) == multiset(s) + multiset{x}
    decreases |s|
  {
    if s != [] && key(x) >= key(s[0]) {
      InsertByPermutes(x, s[1..], key);
      assert s == [s[0]] + s[1..];
    }
  }

  lemma {:induction false} InsertBySorted<T>(x: T, s: seq<T>, key: T -> real)
    requires SortedBy(s, key)
    ensures SortedBy(InsertBy(x, s, key), key)
    decreases |s|
  {
    if s != [] && key(x) >= key(s[0]) {
      var t := InsertBy(x, s[1..], key);
      InsertBySorted(x, s[1..], key);
      InsertByBounded(x, s[1..], key, key(s[0]));
      var r := [s[0]] + t;
      forall i, j | 0 <= i < j < |r| ensures key(r[i]) <= key(r[j]) {
        assert r[j] == t[j - 1];
        if i > 0 {
          assert r[i] == t[i - 1];
        }
      }
    }
  }

  /** A stable insertion sort on `key`: `ORDER BY key ASC`, ties kept in table order. */
  function SortBy<T>(s: seq<T>, key: T -> real): seq<T>
    decreases |s|
  {
    if s == [] then [] else InsertBy(s[|s| - 1], SortBy(s[..|s| - 1], key), key)
  }

  /** The sorted list is in key order and holds exactly the elements of the input. */
  lemma {:induction false} SortByCorrect<T>(s: seq<T>, key: T -> real)
    ensures SortedBy(SortBy(s, key), key)
    ensures multiset(SortBy(s, key)) == multiset(s)
    ensures |SortBy(s, key)| == |s|
    decreases |s|
  {
    if s != [] {
      var init := s[..|s| - 1];
      SortByCorrect(init, key);
      InsertBySorted(s[|s| - 1], SortBy(init, key), key);
      InsertByPermutes(s[|s| - 1], SortBy(init, key), key);
      assert s == init + [s[|s| - 1]];
      assert |multiset(SortBy(s, key))| == |multiset(s)|;
    }
  }

  /** `OFFSET offset LIMIT limit` (PostgreSQL rejects negative values of either). */
  function Page<T>(s: seq<T>, limit: int, offset: int): (r: Result<seq<T>>)
    ensures r.Err? <==> limit < 0 || offset < 0
    ensures r.Ok? ==> |r.value| == Min(limit, Max(0, |s| - offset))
    ensures r.Ok? ==> forall i {:trigger r.value[i]} :: 0 <= i < |r.value| ==> offset + i < |s| && r.value[i] == s[offset + i]
  {
    if offset < 0 then Err("OFFSET must not be negative")
    else if limit < 0 then Err("LIMIT must not be negative")
    else
      var rest := if offset <= |s| then s[offset..] else [];
      Ok(if limit <= |rest| then rest[..limit] else rest)
  }

  /** A sorted list holds the same elements as its input. */
  lemma SortByMembers<T>(s: seq<T>, key: T -> real)
    ensures forall x :: x in SortBy(s, key) <==> x in s
  {
    SortByCorrect(s, key);
    assert forall x :: x in SortBy(s, key) <==> x in multiset(s);
  }

  /** A page of a sorted list is sorted and drawn from it. */
  lemma PageOfSorted<T>(s: seq<T>, limit: int, offset: int, key: T -> real)
    requires SortedBy(s, key) && Page(s, limit, offset).Ok?
    ensures SortedBy(Page(s, limit, offset).value, key)
    ensures forall x :: x in Page(s, limit, offset).value ==> x in s
  {
    var p := Page(s, limit, offset).value;
    forall i, j | 0 <= i < j < |p| ensures key(p[i]) <= key(p[j]) {
      assert p[i] == s[offset + i] && p[j] == s[offset + j];
    }
    forall x | x in p ensures x in s {
      var i :| 0 <= i < |p| && p[i] == x;
      assert s[offset + i] == x;
    }
  }

  /** Two pages of one size, one after the other, are one page of twice the size. */
  lemma PageSplit<T>(s: seq<T>, limit: nat, offset: nat)
    ensures Page(s, limit, offset).Ok? && Page(s, limit, offset + limit).Ok? && Page(s, 2 * limit, offset).Ok?
    ensures Page(s, limit, offset).value + Page(s, limit, offset + limit).value == Page(s, 2 * limit, offset).value
  {
    var a := Page(s, limit, offset).value;
    var b := Page(s, limit, offset + limit).value;
    var c := Page(s, 2 * limit, offset).value;
    assert |a + b| == |c|;
    forall i | 0 <= i < |c| ensures (a + b)[i] == c[i] {
      if i < |a| {
        assert a[i] == s[offset + i];
      } else {
        assert b[i - |a|] == s[offset + limit + (i - |a|)];
      }
    }
  }
}
