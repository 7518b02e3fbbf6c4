/**
 * The `ORDER BY <column> DESC LIMIT n` part of a query, over rows identified
 * by their integer primary key and ranked by an integer column (a timestamp).
 * Rows of equal rank may come back in either order, as in SQL.
 */
module Ranking {
  import opened Common

  /** The id of a row of greatest rank among `candidates`. */
  method PickMax(candidates: set<nat>, ranks: map<nat, int>) returns (m: nat)
    requires candidates != {} && candidates <= ranks.Keys
    ensures m in candidates
    ensures forall k :: k in candidates ==> ranks[k] <= ranks[m]
  {
    m :| m in candidates;
    var unseen := candidates - {m};
    while unseen != {}
      invariant unseen <= candidates && m in candidates
      invariant forall k :: k in candidates && k !in unseen ==> ranks[k] <= ranks[m]
      decreases |unseen|
    {
      var k :| k in unseen;
      if ranks[k] > ranks[m] {
        m := k;
      }
      unseen := unseen - {k};
    }
  }

  /** The ids of the `limit` rows of greatest rank, greatest first. */
  method TopByRank(ranks: map<nat, int>, limit: nat) returns (ids: seq<nat>)
    ensures |ids| == Min(limit, |ranks|)
    ensures NoDuplicates(ids)
    ensures forall i :: 0 <= i < |ids| ==> ids[i] in ranks
    ensures forall i, j :: 0 <= i < j < |ids| ==> ranks[ids[i]] >= ranks[ids[j]]
    ensures forall k, i :: k in ranks && k !in ids && 0 <= i < |ids| ==> ranks[k] <= ranks[ids[i]]
  {
    ids := [];
    var rest := ranks.Keys;
    while |ids| < limit && rest != {}
      invariant rest <= ranks.Keys
      invariant forall k :: k in ranks ==> (k in rest <==> k !in ids)
      invariant |rest| + |ids| == |ranks|
      invariant |ids| <= limit
      invariant NoDuplicates(ids)
      invariant forall i :: 0 <= i < |ids| ==> ids[i] in ranks
      invariant forall i, j :: 0 <= i < j < |ids| ==> ranks[ids[i]] >= ranks[ids[j]]
      invariant forall k, i :: k in rest && 0 <= i < |ids| ==> ranks[k] <= ranks[ids[i]]
      decreases |rest|
    {
      var m := PickMax(rest, ranks);
      ids := ids + [m];
      rest := rest - {m};
    }
  }

  // ---------------------------------------------------------------------
  // Ascending order by a strict total order on the keys themselves

  /** `before` is a strict total order on `keys`. */
  ghost predicate StrictOrder<K(!new)>(before: (K, K) -> bool, keys: set<K>)
  {
    && (forall a :: a in keys ==> !before(a, a))
    && (forall a, b :: a in keys && b in keys && a != b ==> before(a, b) || before(b, a))
    && (forall a, b, c :: a in keys && b in keys && c in keys && before(a, b) && before(b, c) ==> before(a, c))
  }

  /** The key of `keys` that comes first. */
  method FirstBy<K(!new)>(keys: set<K>, before: (K, K) -> bool) returns (m: K)
    requires keys != {} && StrictOrder(before, keys)
    ensures m in keys
    ensures forall a :: a in keys && a != m ==> before(m, a)
  {
    m :| m in keys;
    var unseen := keys - {m};
    while unseen != {}
      invariant unseen <= keys && m in keys && m !in unseen
      invariant forall a :: a in keys && a !in unseen && a != m ==> before(m, a)
      decreases |unseen|
    {
      var a :| a in unseen;
      if before(a, m) {
        m := a;
      }
      unseen := unseen - {a};
    }
  }

  /** The first `n` keys in ascending order (`ORDER BY key LIMIT n`). */
  method TakeSorted<K(!new)>(keys: set<K>, before: (K, K) -> bool, n: nat) returns (ks: seq<K>)
    requires n <= |keys| && StrictOrder(before, keys)
    ensures |ks| == n
    ensures forall i :: 0 <= i < |ks| ==> ks[i] in keys
    ensures forall i, j :: 0 <= i < j < |ks| ==> before(ks[i], ks[j])
    ensures forall a, i :: a in keys && a !in ks && 0 <= i < |ks| ==> before(ks[i], a)
  {
    ks := [];
    var rest := keys;
    while |ks| < n
      invariant rest <= keys && |rest| + |ks| == |keys| && |ks| <= n
      invariant forall a :: a in keys ==> (a in rest <==> a !in ks)
      invariant forall i :: 0 <= i < |ks| ==> ks[i] in keys
      invariant forall i, j :: 0 <= i < j < |ks| ==> before(ks[i], ks[j])
      invariant forall a, i :: a in rest && 0 <= i < |ks| ==> before(ks[i], a)
      decreases n - |ks|
    {
      var m := FirstBy(rest, before);
      ks := ks + [m];
      rest := rest - {m};
    }
  }
}
