/**
 * Helpers shared by the table reads: a table is a map from serial id to row, and
 * a SELECT without ORDER BY is modelled as visiting the ids in ascending order.
 * Only membership and counts of the visited rows are promised, never their order.
 */
module Tables {

  lemma NonEmptyHasMember(s: set<int>)
    requires s != {}
    ensures exists y :: y in s
  {
    if forall y :: y !in s {
      assert false;
    }
  }

  lemma {:induction false} MinExists(s: set<int>)
    requires s != {}
    ensures exists m :: m in s && forall y :: y in s ==> m <= y
    decreases |s|
  {
    NonEmptyHasMember(s);
    var x :| x in s;
    var rest := s - {x};
    if rest == {} {
      forall y | y in s ensures x <= y { assert y in rest || y == x; }
    } else {
      MinExists(rest);
      var m :| m in rest && forall y :: y in rest ==> m <= y;
      var lo := if x < m then x else m;
      forall y | y in s ensures lo <= y { assert y in rest || y == x; }
      assert lo in s;
    }
  }

  function MinOf(s: set<int>): (m: int)
    requires s != {}
    ensures m in s && forall y :: y in s ==> m <= y
  {
    MinExists(s);
    var m :| m in s && forall y :: y in s ==> m <= y; m
  }

  predicate Increasing(ks: seq<int>) {
    forall i, j :: 0 <= i < j < |ks| ==> ks[i] < ks[j]
  }

  /** The ids of a table in the order the model's scan visits them. */
  function Ascending(s: set<int>): (ks: seq<int>)
    ensures Increasing(ks) && |ks| == |s|
    ensures forall i :: 0 <= i < |ks| ==> ks[i] in s
    ensures forall k :: k in ks <==> k in s
    decreases |s|
  {
    if s == {} then [] else
    var m := MinOf(s);
    [m] + Ascending(s - {m})
  }

  /** The ids of the rows of m that satisfy p. */
  ghost function Where<T>(m: map<int, T>, p: T -> bool): set<int> {
    set k | k in m && p(m[k])
  }

  /** A strictly increasing sequence has no repeated id. */
  lemma {:induction false} IncreasingCardinality(ks: seq<int>)
    requires Increasing(ks)
    ensures |set k | k in ks| == |ks|
  {
    if ks != [] {
      IncreasingCardinality(ks[1..]);
      assert (set k | k in ks) == {ks[0]} + set k | k in ks[1..];
      assert ks[0] !in set k | k in ks[1..];
    }
  }

  lemma HeadBelowTail(ks: seq<int>)
    requires Increasing(ks) && ks != []
    ensures forall k :: k in ks[1..] ==> ks[0] < k
  {
    forall k | k in ks[1..] ensures ks[0] < k {
      var j :| 0 <= j < |ks[1..]| && ks[1..][j] == k;
      assert ks[j + 1] == k;
    }
  }

  /** The ids among ks whose row satisfies p, in the order of ks. */
  function Filter<T>(m: map<int, T>, ks: seq<int>, p: T -> bool): (r: seq<int>)
    requires forall i :: 0 <= i < |ks| ==> ks[i] in m
    requires Increasing(ks)
    ensures Increasing(r)
    ensures forall i :: 0 <= i < |r| ==> r[i] in m
    ensures forall k :: k in r <==> k in ks && p(m[k])
  {
    if ks == [] then []
    else
      var rest := Filter(m, ks[1..], p);
      if p(m[ks[0]]) then
        HeadBelowTail(ks);
        [ks[0]] + rest
      else
        rest
  }

  /** A SELECT ... WHERE p: the ids of the matching rows, each exactly once. */
  function Select<T>(m: map<int, T>, p: T -> bool): (r: seq<int>)
    ensures Increasing(r)
    ensures forall i :: 0 <= i < |r| ==> r[i] in m
    ensures forall k :: k in r <==> k in m && p(m[k])
    ensures |r| == |Where(m, p)|
  {
    var r := Filter(m, Ascending(m.Keys), p);
    IncreasingCardinality(r);
    SameIds(r, m, p);
    r
  }

  lemma SameIds<T>(r: seq<int>, m: map<int, T>, p: T -> bool)
    requires forall k :: k in r <==> k in m && p(m[k])
    ensures (set k | k in r) == Where(m, p)
  {
    var a := set k | k in r;
    var b := Where(m, p);
    forall k ensures k in a <==> k in b {
      assert k in a <==> k in r;
      assert k in b <==> k in m && p(m[k]);
    }
  }

  /** The rows stored under the ids ks, in that order. */
  function Rows<T>(m: map<int, T>, ks: seq<int>): (rows: seq<T>)
    requires forall i :: 0 <= i < |ks| ==> ks[i] in m
    ensures |rows| == |ks|
    ensures forall i :: 0 <= i < |ks| ==> rows[i] == m[ks[i]]
  {
    seq(|ks|, i requires 0 <= i < |ks| => m[ks[i]])
  }
}
