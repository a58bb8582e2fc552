/** A SQL table is modelled as the sequence of its rows in primary-key order. These are the
    shapes of statement that the repositories use: `UPDATE ... WHERE`, `SELECT COUNT(*) ... WHERE`,
    `SELECT ... WHERE` and `... ORDER BY id DESC LIMIT 1`, plus Go's loop that copies the keys
    of a map into a slice. */
module Tables {
  import opened Wrappers

  /** `UPDATE t SET ... WHERE p`: the rows satisfying `p` become `f(row)`, the others stay. */
  function UpdateWhere<R>(t: seq<R>, p: R -> bool, f: R -> R): (r: seq<R>)
    ensures |r| == |t|
    ensures forall i :: 0 <= i < |t| ==> r[i] == (if p(t[i]) then f(t[i]) else t[i])
  {
    seq(|t|, i requires 0 <= i < |t| => if p(t[i]) then f(t[i]) else t[i])
  }

  /** `SELECT COUNT(*) FROM t WHERE p`. */
  function CountWhere<R>(t: seq<R>, p: R -> bool): nat
  {
    if t == [] then 0 else CountWhere(t[..|t| - 1], p) + (if p(t[|t| - 1]) then 1 else 0)
  }

  /** `SELECT * FROM t WHERE p`, in table order. */
  function Filter<R>(t: seq<R>, p: R -> bool): seq<R>
  {
    if t == [] then [] else Filter(t[..|t| - 1], p) + (if p(t[|t| - 1]) then [t[|t| - 1]] else [])
  }

  /** `SELECT * FROM t WHERE p ORDER BY id DESC LIMIT 1`: the last matching row. */
  function LastWhere<R>(t: seq<R>, p: R -> bool): Option<R>
  {
    if t == [] then None
    else if p(t[|t| - 1]) then Some(t[|t| - 1])
    else LastWhere(t[..|t| - 1], p)
  }

  /** `SELECT * FROM t WHERE p LIMIT 1` with no `ORDER BY`: the model takes the first match in
      primary-key order. */
  function FirstWhere<R>(t: seq<R>, p: R -> bool): Option<R>
  {
    if t == [] then None
    else if p(t[0]) then Some(t[0])
    else FirstWhere(t[1..], p)
  }

  /** The filtered rows are exactly the matching rows of the table, and there are as many of
      them as the count says. */
  lemma {:induction false} FilterIsSelection<R>(t: seq<R>, p: R -> bool)
    ensures |Filter(t, p)| == CountWhere(t, p)
    ensures forall x :: x in Filter(t, p) <==> x in t && p(x)
  {
    if t != [] {
      FilterIsSelection(t[..|t| - 1], p);
      assert t == t[..|t| - 1] + [t[|t| - 1]];
    }
  }

  /** A bound on every row's key bounds the keys of the filtered rows. */
  lemma {:induction false} FilterKeepsBound<R>(t: seq<R>, p: R -> bool, key: R -> int, bound: int)
    requires forall i :: 0 <= i < |t| ==> key(t[i]) < bound
    ensures forall i :: 0 <= i < |Filter(t, p)| ==> key(Filter(t, p)[i]) < bound
  {
    if t != [] {
      FilterKeepsBound(t[..|t| - 1], p, key, bound);
    }
  }

  /** Filtering keeps rows in their order, so rows whose keys ascend still do afterwards. */
  lemma {:induction false} FilterKeepsAscending<R>(t: seq<R>, p: R -> bool, key: R -> int)
    requires forall i, j :: 0 <= i < j < |t| ==> key(t[i]) < key(t[j])
    ensures forall i, j :: 0 <= i < j < |Filter(t, p)| ==> key(Filter(t, p)[i]) < key(Filter(t, p)[j])
  {
    if t != [] {
      var u := t[..|t| - 1];
      FilterKeepsAscending(u, p, key);
      FilterKeepsBound(u, p, key, key(t[|t| - 1]));
    }
  }

  /** A filter that every row passes keeps the table as it is. */
  lemma {:induction false} FilterKeepsAll<R>(t: seq<R>, p: R -> bool)
    requires forall i :: 0 <= i < |t| ==> p(t[i])
    ensures Filter(t, p) == t
  {
    if t != [] {
      FilterKeepsAll(t[..|t| - 1], p);
      assert t == t[..|t| - 1] + [t[|t| - 1]];
    }
  }

  /** The rows matching a predicate and those matching its negation make up the table. */
  lemma {:induction false} CountComplement<R>(t: seq<R>, p: R -> bool, q: R -> bool)
    requires forall x :: q(x) <==> !p(x)
    ensures CountWhere(t, q) == |t| - CountWhere(t, p)
  {
    if t != [] {
      CountComplement(t[..|t| - 1], p, q);
    }
  }

  /** A count is zero exactly when no row matches. */
  lemma {:induction false} CountZeroIffNone<R>(t: seq<R>, p: R -> bool)
    ensures CountWhere(t, p) == 0 <==> forall i :: 0 <= i < |t| ==> !p(t[i])
  {
    if t != [] {
      CountZeroIffNone(t[..|t| - 1], p);
    }
  }

  /** The count never exceeds the number of rows. */
  lemma {:induction false} CountBounded<R>(t: seq<R>, p: R -> bool)
    ensures CountWhere(t, p) <= |t|
  {
    if t != [] {
      CountBounded(t[..|t| - 1], p);
    }
  }

  /** Appending a row adds one to the count exactly when the row matches. */
  lemma CountAppend<R>(t: seq<R>, x: R, p: R -> bool)
    ensures CountWhere(t + [x], p) == CountWhere(t, p) + (if p(x) then 1 else 0)
  {
    assert (t + [x])[..|t + [x]| - 1] == t;
  }

  /** The last matching row: it matches, no later row matches, and it is absent only when no
      row matches. */
  lemma {:induction false} LastWhereIsLast<R>(t: seq<R>, p: R -> bool)
    ensures LastWhere(t, p).None? <==> forall i :: 0 <= i < |t| ==> !p(t[i])
    ensures LastWhere(t, p).Some? ==>
      exists k :: 0 <= k < |t| && t[k] == LastWhere(t, p).value && p(t[k])
        && forall j :: k < j < |t| ==> !p(t[j])
  {
    if t != [] && !p(t[|t| - 1]) {
      var u := t[..|t| - 1];
      LastWhereIsLast(u, p);
      if LastWhere(t, p).Some? {
        var k :| 0 <= k < |u| && u[k] == LastWhere(t, p).value && p(u[k])
          && forall j :: k < j < |u| ==> !p(u[j]);
        assert t[k] == LastWhere(t, p).value;
      }
    } else if t != [] {
      assert t[|t| - 1] == LastWhere(t, p).value;
    }
  }

  /** When keys ascend along the table, the last matching row is the matching row with the
      greatest key: `ORDER BY id DESC LIMIT 1`. */
  lemma LastWhereHasGreatestKey<R>(t: seq<R>, p: R -> bool, key: R -> int)
    requires forall i, j :: 0 <= i < j < |t| ==> key(t[i]) < key(t[j])
    ensures LastWhere(t, p).Some? ==>
      LastWhere(t, p).value in t && p(LastWhere(t, p).value)
      && forall x :: x in t && p(x) ==> key(x) <= key(LastWhere(t, p).value)
  {
    LastWhereIsLast(t, p);
    if LastWhere(t, p).Some? {
      var k :| 0 <= k < |t| && t[k] == LastWhere(t, p).value && p(t[k])
        && forall j :: k < j < |t| ==> !p(t[j]);
      forall x | x in t && p(x)
        ensures key(x) <= key(t[k])
      {
        var i :| 0 <= i < |t| && t[i] == x;
        assert i <= k;
      }
    }
  }

  /** The first matching row: it matches, no earlier row matches, and it is absent only when
      no row matches. */
  lemma {:induction false} FirstWhereIsFirst<R>(t: seq<R>, p: R -> bool)
    ensures FirstWhere(t, p).None? <==> forall i :: 0 <= i < |t| ==> !p(t[i])
    ensures FirstWhere(t, p).Some? ==>
      exists k :: 0 <= k < |t| && t[k] == FirstWhere(t, p).value && p(t[k])
        && forall j :: 0 <= j < k ==> !p(t[j])
  {
    if t != [] && !p(t[0]) {
      FirstWhereIsFirst(t[1..], p);
      if FirstWhere(t, p).Some? {
        var k :| 0 <= k < |t| - 1 && t[1..][k] == FirstWhere(t, p).value && p(t[1..][k])
          && forall j :: 0 <= j < k ==> !p(t[1..][j]);
        assert t[k + 1] == FirstWhere(t, p).value;
        assert forall j :: 1 <= j < k + 1 ==> t[j] == t[1..][j - 1];
      } else {
        assert forall i :: 1 <= i < |t| ==> t[i] == t[1..][i - 1];
      }
    } else if t != [] {
      assert t[0] == FirstWhere(t, p).value;
    }
  }

  /** A row appended after rows none of which match is the first match. */
  lemma {:induction false} FirstWhereAfterAppend<R>(t: seq<R>, x: R, p: R -> bool)
    requires forall i :: 0 <= i < |t| ==> !p(t[i])
    requires p(x)
    ensures FirstWhere(t + [x], p) == Some(x)
  {
    if t != [] {
      assert (t + [x])[1..] == t[1..] + [x];
      FirstWhereAfterAppend(t[1..], x, p);
    }
  }

  /** Go's `for k := range m { out = append(out, k) }`: every element of `s` once, in an order
      the runtime chooses. */
  method SetToSeq<T>(s: set<T>) returns (r: seq<T>)
    ensures |r| == |s|
    ensures forall x :: x in r <==> x in s
    ensures forall i, j :: 0 <= i < j < |r| ==> r[i] != r[j]
  {
    r := [];
    var rest := s;
    while rest != {}
      invariant rest <= s
      invariant forall x :: x in r <==> x in s && x !in rest
      invariant forall i, j :: 0 <= i < j < |r| ==> r[i] != r[j]
      invariant |r| + |rest| == |s|
      decreases |rest|
    {
      var x :| x in rest;
      r := r + [x];
      rest := rest - {x};
    }
  }
  /** The rows in the opposite order: `ORDER BY id DESC` over a table kept in id order. */
  function Reversed<R>(s: seq<R>): (r: seq<R>)
    ensures |r| == |s|
    ensures forall i :: 0 <= i < |s| ==> r[i] == s[|s| - 1 - i]
  {
    if s == [] then [] else [s[|s| - 1]] + Reversed(s[..|s| - 1])
  }

  /** The row a single-row lookup returns, seen through the columns its statement selects. */
  function Project<R>(found: Option<R>, view: R -> R): (r: Option<R>)
    ensures r.Some? <==> found.Some?
    ensures r.Some? ==> r.value == view(found.value)
  {
    if found.Some? then Some(view(found.value)) else None
  }

  /** The rows a query returns, each seen through the columns its statement selects. */
  function ProjectAll<R>(s: seq<R>, view: R -> R): (r: seq<R>)
    ensures |r| == |s|
    ensures forall i :: 0 <= i < |s| ==> r[i] == view(s[i])
  {
    if s == [] then [] else [view(s[0])] + ProjectAll(s[1..], view)
  }

  /** Reversing keeps the same rows. */
  lemma ReversedSameRows<R>(s: seq<R>)
    ensures forall x :: x in Reversed(s) <==> x in s
  {
    var r := Reversed(s);
    forall x | x in s ensures x in r {
      var i :| 0 <= i < |s| && s[i] == x;
      assert r[|s| - 1 - i] == x;
    }
  }

  /** `LIMIT limit OFFSET offset`: at most `limit` rows, starting after the first `offset`. */
  function Page<R>(s: seq<R>, limit: nat, offset: nat): (r: seq<R>)
    ensures |r| <= limit
    ensures offset >= |s| ==> r == []
    ensures offset < |s| ==> |r| == (if |s| - offset < limit then |s| - offset else limit)
    ensures forall i :: 0 <= i < |r| ==> offset + i < |s| && r[i] == s[offset + i]
  {
    var lo := if offset < |s| then offset else |s|;
    var hi := if lo + limit < |s| then lo + limit else |s|;
    s[lo..hi]
  }

  /** A page of the matching rows, in either order, holds only matching rows of the table. */
  lemma PageOfMatches<R>(t: seq<R>, p: R -> bool, limit: nat, offset: nat)
    ensures forall x :: x in Page(Reversed(Filter(t, p)), limit, offset) ==> x in t && p(x)
  {
    var f := Filter(t, p);
    FilterIsSelection(t, p);
    var page := Page(Reversed(f), limit, offset);
    forall x | x in page
      ensures x in t && p(x)
    {
      var i :| 0 <= i < |page| && page[i] == x;
      assert x == f[|f| - 1 - (offset + i)];
    }
  }
}
