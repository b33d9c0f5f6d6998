/** The iteration order of std::map<int, T>: ascending keys. */
module Keys {

  /** `m` is the least element of `s`. */
  predicate IsMin(s: set<int>, m: int)
  {
    m in s && forall x :: x in s ==> m <= x
  }

  /** A set other than the empty set has an element. */
  lemma HasElement(s: set<int>)
    requires s != {}
    ensures exists x :: x in s
  {
    if forall x :: x !in s {
      assert false;
    }
  }

  /** Every non-empty finite set of integers has a least element. */
  lemma {:induction false} MinExists(s: set<int>)
    requires s != {}
    ensures exists m :: IsMin(s, m)
    decreases |s|
  {
    HasElement(s);
    var x :| x in s;
    var rest := s - {x};
    assert forall y :: y in s ==> y == x || y in rest;
    if rest == {} {
      assert IsMin(s, x);
    } else {
      MinExists(rest);
      var m :| IsMin(rest, m);
      if x < m {
        assert IsMin(s, x);
      } else {
        assert IsMin(s, m);
      }
    }
  }

  /** The least key of a non-empty key set. */
  ghost function MinKey(s: set<int>): (m: int)
    requires s != {}
    ensures IsMin(s, m)
  {
    MinExists(s);
    var m :| IsMin(s, m);
    m
  }

  /** The elements of `r` strictly increase. */
  predicate Ascending(r: seq<int>)
  {
    forall i, j :: 0 <= i < j < |r| ==> r[i] < r[j]
  }

  /** The keys of `s` in the order a std::map visits them. */
  ghost function SortedKeys(s: set<int>): (r: seq<int>)
    ensures |r| == |s|
    ensures forall x :: x in s <==> x in r
    ensures Ascending(r)
    decreases |s|
  {
    if s == {} then []
    else
      var m := MinKey(s);
      var rest := SortedKeys(s - {m});
      AscendingCons(m, rest);
      [m] + rest
  }

  /** A key below every element of an ascending sequence can go in front. */
  lemma AscendingCons(m: int, rest: seq<int>)
    requires Ascending(rest)
    requires forall x :: x in rest ==> m < x
    ensures Ascending([m] + rest)
  {
    forall i, j | 0 <= i < j < |[m] + rest| ensures ([m] + rest)[i] < ([m] + rest)[j] {
      assert rest[j - 1] in rest;
      if i > 0 {
        assert ([m] + rest)[i] == rest[i - 1];
      }
    }
  }

  /** `rem` holds exactly the keys of `s` from position `n` of the
      ascending order on: the keys an iteration that has visited `n` keys
      still has to visit. */
  ghost predicate Unvisited(s: set<int>, n: nat, rem: set<int>)
  {
    && n <= |SortedKeys(s)| && |rem| == |SortedKeys(s)| - n
    && forall x :: x in rem <==> x in SortedKeys(s)[n..]
  }

  /** Before the first step every key is still to be visited. */
  lemma UnvisitedStart(s: set<int>)
    ensures Unvisited(s, 0, s)
  {
    assert SortedKeys(s)[0..] == SortedKeys(s);
  }

  /** For an ascending sequence whose suffix from `n` holds exactly the
      elements of `rem`, the least element of `rem` is `r[n]`, and removing
      it leaves the suffix from `n + 1`. */
  lemma {:induction false} AscendingSuffixStep(r: seq<int>, n: nat, rem: set<int>, k: int)
    requires Ascending(r)
    requires n <= |r| && |rem| == |r| - n
    requires forall x :: x in rem <==> x in r[n..]
    requires IsMin(rem, k)
    ensures n < |r| && r[n] == k
    ensures |rem - {k}| == |r| - (n + 1)
    ensures forall x :: x in rem - {k} <==> x in r[n + 1..]
  {
    assert k in r[n..];
    var j :| 0 <= j < |r[n..]| && r[n..][j] == k;
    assert r[n] in rem by {
      assert r[n] == r[n..][0];
    }
    assert j == 0;
    forall x ensures x in rem - {k} <==> x in r[n + 1..] {
      if x in r[n + 1..] {
        var i :| 0 <= i < |r[n + 1..]| && r[n + 1..][i] == x;
        assert x == r[n..][i + 1];
        assert r[n] < r[n + 1 + i];
      }
      if x in rem - {k} {
        var i :| 0 <= i < |r[n..]| && r[n..][i] == x;
        assert i != 0;
        assert x == r[n + 1..][i - 1];
      }
    }
  }

  /** Visiting the least unvisited key is visiting the next key of the
      ascending order. */
  lemma UnvisitedStep(s: set<int>, n: nat, rem: set<int>, k: int)
    requires Unvisited(s, n, rem)
    requires IsMin(rem, k)
    ensures n < |SortedKeys(s)| && SortedKeys(s)[n] == k
    ensures Unvisited(s, n + 1, rem - {k})
  {
    AscendingSuffixStep(SortedKeys(s), n, rem, k);
  }
}
