/** Descending ranking of positions by an integer key, as Python's
    `sorted(..., key=k, reverse=True)` produces it: keys non-increasing and,
    because Python's sort is stable, equal keys in their original order. */
module Ranking {

  /** Position `i` is ranked before position `j`: a higher key, or an equal
      key and an earlier position.  A strict total order on positions. */
  predicate Before(keys: seq<int>, i: nat, j: nat)
    requires i < |keys| && j < |keys|
  {
    keys[i] > keys[j] || (keys[i] == keys[j] && i < j)
  }

  predicate Ranked(keys: seq<int>, order: seq<nat>)
  {
    && (forall k :: 0 <= k < |order| ==> order[k] < |keys|)
    && (forall a, b :: 0 <= a < b < |order| ==> Before(keys, order[a], order[b]))
  }

  /** Putting a position ranked before every member of a ranked order at its
      front keeps it ranked. */
  lemma {:induction false} RankedCons(keys: seq<int>, h: nat, rest: seq<nat>)
    requires h < |keys| && Ranked(keys, rest)
    requires forall e :: e in rest ==> Before(keys, h, e)
    ensures Ranked(keys, [h] + rest)
  {
    var r := [h] + rest;
    forall a, b | 0 <= a < b < |r| ensures Before(keys, r[a], r[b]) {
      assert r[b] == rest[b - 1];
      if a > 0 {
        assert r[a] == rest[a - 1];
      } else {
        assert r[b] in rest;
      }
    }
  }

  /** Inserts position `x` into a ranked order at its place. */
  function Insert(keys: seq<int>, x: nat, order: seq<nat>): (r: seq<nat>)
    requires x < |keys| && x !in order
    requires Ranked(keys, order)
    ensures |r| == |order| + 1
    ensures forall e :: e in r <==> e == x || e in order
    ensures Ranked(keys, r)
  {
    if order == [] then [x]
    else if Before(keys, x, order[0]) then
      assert forall e :: e in order ==> Before(keys, x, e) by {
        forall e | e in order ensures Before(keys, x, e) {
          var b :| 0 <= b < |order| && order[b] == e;
          if b > 0 {
            assert Before(keys, order[0], order[b]);
          }
        }
      }
      RankedCons(keys, x, order);
      [x] + order
    else
      var rest := Insert(keys, x, order[1..]);
      assert forall e :: e in order[1..] ==> Before(keys, order[0], e) by {
        forall e | e in order[1..] ensures Before(keys, order[0], e) {
          var b :| 0 <= b < |order[1..]| && order[1..][b] == e;
          assert order[b + 1] == e;
        }
      }
      assert Before(keys, order[0], x);
      RankedCons(keys, order[0], rest);
      [order[0]] + rest
  }

  /** The positions `0 .. n-1` in ranked order. */
  function RankPrefix(keys: seq<int>, n: nat): (r: seq<nat>)
    requires n <= |keys|
    ensures |r| == n
    ensures forall e: nat :: e in r <==> e < n
    ensures Ranked(keys, r)
  {
    if n == 0 then [] else Insert(keys, n - 1, RankPrefix(keys, n - 1))
  }

  /** All positions of `keys`, best first, ties in original order. */
  function RankOrder(keys: seq<int>): (r: seq<nat>)
    ensures |r| == |keys|
    ensures Ranked(keys, r)
    ensures forall e: nat :: e in r <==> e < |keys|
    ensures forall a, b :: 0 <= a < b < |r| ==> keys[r[a]] >= keys[r[b]]
    ensures forall a, b :: 0 <= a < b < |r| && keys[r[a]] == keys[r[b]] ==> r[a] < r[b]
  {
    RankPrefix(keys, |keys|)
  }

  /** A ranked order lists every position exactly once. */
  lemma {:induction false} RankOrderDistinct(keys: seq<int>, a: nat, b: nat)
    requires a < b < |keys|
    ensures RankOrder(keys)[a] != RankOrder(keys)[b]
  {
    var r := RankOrder(keys);
    assert Before(keys, r[a], r[b]);
  }

  /** The first `m` entries of a ranking beat every position not among them. */
  lemma {:induction false} TopBeatsRest(keys: seq<int>, m: nat, e: nat, u: nat)
    requires m <= |keys|
    requires e in RankOrder(keys)[..m]
    requires u < |keys| && u !in RankOrder(keys)[..m]
    ensures keys[e] >= keys[u]
  {
    var r := RankOrder(keys);
    var a :| 0 <= a < m && r[a] == e;
    assert u in r;
    var b :| 0 <= b < |r| && r[b] == u;
    assert forall c :: 0 <= c < m ==> r[c] == r[..m][c];
    assert m <= b;
  }
}
