/** `ORDER BY <time> ASC, id ASC LIMIT n` over the rows a WHERE clause keeps. A query is
    given as the map from each kept row's id to its sort column; a NULL sorts last. */
module Queries {
  import opened Schema

  type Keys = map<nat, Option<Time>>

  /** (t, i) sorts no later than (u, j). */
  predicate Precedes(t: Option<Time>, i: nat, u: Option<Time>, j: nat) {
    match (t, u)
    case (Some(a), Some(b)) => a < b || (a == b && i <= j)
    case (Some(_), None) => true
    case (None, Some(_)) => false
    case (None, None) => i <= j
  }

  /** Row `id` is the one that `LIMIT 1` returns. */
  ghost predicate IsLeast(keys: Keys, id: nat) {
    && id in keys
    && forall j | j in keys :: Precedes(keys[id], id, keys[j], j)
  }

  /** The sort order is total, so the row is determined by the query alone, whatever the
      physical order in which rows are visited. */
  lemma LeastIsUnique(keys: Keys, i: nat, j: nat)
    requires IsLeast(keys, i) && IsLeast(keys, j)
    ensures i == j
  {
    assert Precedes(keys[i], i, keys[j], j) && Precedes(keys[j], j, keys[i], i);
  }

  /** `LIMIT 1`: visits the rows in an arbitrary order. */
  method SelectLeast(keys: Keys) returns (first: Option<nat>)
    ensures first.None? <==> keys == map[]
    ensures first.Some? ==> IsLeast(keys, first.value)
  {
    first := None;
    var rest := keys.Keys;
    while rest != {}
      invariant rest <= keys.Keys
      invariant first.None? ==> rest == keys.Keys
      invariant first.Some? ==> first.value in keys
      invariant first.Some? ==>
        forall j | j in keys.Keys - rest :: Precedes(keys[first.value], first.value, keys[j], j)
      decreases rest
    {
      var j: nat :| j in rest;
      rest := rest - {j};
      if first.None? || Precedes(keys[j], j, keys[first.value], first.value) {
        first := Some(j);
      }
    }
  }

  /** `ids` lists rows in order, every row it leaves out sorts after every row it lists, and
      it stops short of `max` only when the rows run out. */
  ghost predicate IsPrefix(keys: Keys, max: nat, ids: seq<nat>) {
    && |ids| <= max
    && (forall k | 0 <= k < |ids| :: ids[k] in keys)
    && (forall a, b | 0 <= a < b < |ids| ::
         ids[a] != ids[b] && Precedes(keys[ids[a]], ids[a], keys[ids[b]], ids[b]))
    && (forall k, j | 0 <= k < |ids| && j in keys && j !in ids ::
         Precedes(keys[ids[k]], ids[k], keys[j], j))
    && (|ids| < max ==> forall j | j in keys :: j in ids)
  }

  /** `LIMIT max`: takes the least remaining row until there are enough or none is left. */
  method SelectPrefix(keys: Keys, max: nat) returns (ids: seq<nat>)
    ensures IsPrefix(keys, max, ids)
  {
    ids := [];
    var rest := keys;
    while |ids| < max && rest != map[]
      invariant |ids| <= max
      invariant forall j :: j in rest <==> j in keys && j !in ids
      invariant forall j | j in rest :: rest[j] == keys[j]
      invariant forall k | 0 <= k < |ids| :: ids[k] in keys
      invariant forall a, b | 0 <= a < b < |ids| ::
        ids[a] != ids[b] && Precedes(keys[ids[a]], ids[a], keys[ids[b]], ids[b])
      invariant forall k, j | 0 <= k < |ids| && j in rest :: Precedes(keys[ids[k]], ids[k], keys[j], j)
      decreases rest.Keys
    {
      var first := SelectLeast(rest);
      ghost var was := rest;
      rest := rest - {first.value};
      assert rest.Keys < was.Keys;
      ids := ids + [first.value];
    }
    assert |ids| < max ==> forall j | j in keys :: j in rest || j in ids;
  }
}
