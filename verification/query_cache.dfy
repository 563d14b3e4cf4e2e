/**
 * The query-identity cache shared, with identical logic, by the Firestore and
 * the Realtime Database hooks: an insertion-ordered list of (query, id)
 * entries, scanned front to back with the backend's `isEqual`, where the
 * receiver is the cached query and the argument the query being resolved.
 *
 * The cache is a JavaScript `Map`, so its keys are compared by object
 * identity, which Dafny's `==` on the opaque query type stands for. The
 * predicate `isEqual` is arbitrary: nothing here assumes it is reflexive,
 * symmetric or transitive unless a lemma says so.
 */
module QueryCache {
  import opened Js

  /** One cache entry: the query as first seen, and the id it was given. */
  type Entry<Q> = (Q, string)

  /** The entries in insertion order. */
  type Cache<Q> = seq<Entry<Q>>

  /** What one resolution gives back: the id, and the cache afterwards. */
  datatype Resolution<Q> = Resolution(id: string, cache: Cache<Q>)

  /** What a run of resolutions gives back: each call's id, and the final cache. */
  datatype Run<Q> = Run(ids: seq<string>, cache: Cache<Q>)

  /** The cached queries, in insertion order. */
  function Queries<Q>(c: Cache<Q>): (r: seq<Q>)
    ensures |r| == |c|
    ensures forall j :: 0 <= j < |c| ==> r[j] == c[j].0
  {
    seq(|c|, j requires 0 <= j < |c| => c[j].0)
  }

  /**
   * The position of the first entry whose query accepts `q`, or `Nothing`
   * when the scan reaches the end without a match.
   */
  function FirstMatch<Q>(c: Cache<Q>, isEqual: (Q, Q) -> bool, q: Q): (r: Maybe<nat>)
    ensures r.Just? ==> r.value < |c| && isEqual(c[r.value].0, q)
    ensures r.Just? ==> forall j :: 0 <= j < r.value ==> !isEqual(c[j].0, q)
    ensures r.Nothing? <==> forall j :: 0 <= j < |c| ==> !isEqual(c[j].0, q)
    decreases |c|
  {
    if |c| == 0 then Nothing
    else if isEqual(c[0].0, q) then Just(0)
    else
      match FirstMatch(c[1..], isEqual, q)
      case Nothing => Nothing
      case Just(i) => Just(i + 1)
  }

  /**
   * `Map.prototype.set(q, id)`: a query already present as a key (the same
   * object) keeps its position and takes the new id; any other query is
   * appended at the end.
   */
  function MapSet<Q(==)>(c: Cache<Q>, q: Q, id: string): (r: Cache<Q>)
    ensures q !in Queries(c) ==> r == c + [(q, id)]
    ensures q in Queries(c) ==> |r| == |c|
    ensures q in Queries(c) ==> forall j :: 0 <= j < |c| ==> r[j] == (if c[j].0 == q then (q, id) else c[j])
    ensures Queries(r) == if q in Queries(c) then Queries(c) else Queries(c) + [q]
  {
    if q in Queries(c) then
      var r := seq(|c|, j requires 0 <= j < |c| => if c[j].0 == q then (q, id) else c[j]);
      assert Queries(r) == Queries(c);
      r
    else
      var r := c + [(q, id)];
      assert Queries(r) == Queries(c) + [q];
      r
  }

  /**
   * The cache lookup: on a hit the first matching entry's id with the cache
   * untouched, on a miss `freshId` stored with `Map.set`.
   */
  function Resolve<Q(==)>(c: Cache<Q>, isEqual: (Q, Q) -> bool, q: Q, freshId: string): (r: Resolution<Q>)
    ensures forall i :: 0 <= i < |c| && isEqual(c[i].0, q) && (forall j :: 0 <= j < i ==> !isEqual(c[j].0, q))
              ==> r == Resolution(c[i].1, c)
    ensures (forall j :: 0 <= j < |c| ==> !isEqual(c[j].0, q))
              ==> r.id == freshId && r.cache == MapSet(c, q, freshId)
    ensures Queries(c) <= Queries(r.cache)
    ensures |c| <= |r.cache| <= |c| + 1
    ensures isEqual(q, q) ==> c <= r.cache
  {
    match FirstMatch(c, isEqual, q)
    case Just(i) => Resolution(c[i].1, c)
    case Nothing => Resolution(freshId, MapSet(c, q, freshId))
  }

  /**
   * Resolves `qs` one after another on the evolving cache; the k-th call is
   * handed `freshIds[k]` as the id it stores if it misses.
   */
  function ResolveAll<Q(==)>(c: Cache<Q>, isEqual: (Q, Q) -> bool, qs: seq<Q>, freshIds: seq<string>): (r: Run<Q>)
    requires |qs| == |freshIds|
    ensures |r.ids| == |qs|
    ensures Queries(c) <= Queries(r.cache)
    ensures |c| <= |r.cache| <= |c| + |qs|
    decreases |qs|
  {
    if |qs| == 0 then Run([], c)
    else
      var first := Resolve(c, isEqual, qs[0], freshIds[0]);
      var rest := ResolveAll(first.cache, isEqual, qs[1..], freshIds[1..]);
      Run([first.id] + rest.ids, rest.cache)
  }

  ghost predicate Reflexive<Q(!new)>(isEqual: (Q, Q) -> bool)
  {
    forall x :: isEqual(x, x)
  }

  ghost predicate Equivalence<Q(!new)>(isEqual: (Q, Q) -> bool)
  {
    && Reflexive(isEqual)
    && (forall x, y :: isEqual(x, y) ==> isEqual(y, x))
    && (forall x, y, z :: isEqual(x, y) && isEqual(y, z) ==> isEqual(x, z))
  }

  /** `q1` and `q2` are accepted by exactly the same cached queries. */
  ghost predicate SameAcceptance<Q(!new)>(isEqual: (Q, Q) -> bool, q1: Q, q2: Q)
  {
    forall x :: isEqual(x, q1) == isEqual(x, q2)
  }

  /** Queries equal under an equivalence are accepted by the same cached queries. */
  lemma EqualQueriesSameAcceptance<Q(!new)>(isEqual: (Q, Q) -> bool, q1: Q, q2: Q)
    requires Equivalence(isEqual) && isEqual(q1, q2)
    ensures SameAcceptance(isEqual, q1, q2)
  {
    forall x
      ensures isEqual(x, q1) == isEqual(x, q2)
    {
      assert isEqual(q2, q1);
    }
  }

  /** No query is a key twice, as in any `Map`. */
  ghost predicate DistinctKeys<Q>(c: Cache<Q>)
  {
    forall i, j :: 0 <= i < j < |c| ==> c[i].0 != c[j].0
  }

  /** No entry is accepted by an earlier one, so every entry can still be reached by a scan. */
  ghost predicate Unshadowed<Q>(c: Cache<Q>, isEqual: (Q, Q) -> bool)
  {
    forall i, j :: 0 <= i < j < |c| ==> !isEqual(c[i].0, c[j].0)
  }

  ghost predicate Valid<Q>(c: Cache<Q>, isEqual: (Q, Q) -> bool)
  {
    DistinctKeys(c) && Unshadowed(c, isEqual)
  }

  /** Every resolution keeps the cache valid, whatever `isEqual` is. */
  lemma ResolvePreservesValid<Q>(c: Cache<Q>, isEqual: (Q, Q) -> bool, q: Q, freshId: string)
    requires Valid(c, isEqual)
    ensures Valid(Resolve(c, isEqual, q, freshId).cache, isEqual)
  {
    var r := Resolve(c, isEqual, q, freshId);
    if FirstMatch(c, isEqual, q).Nothing? && q in Queries(c) {
      forall i, j | 0 <= i < j < |r.cache|
        ensures r.cache[i].0 == c[i].0 && r.cache[j].0 == c[j].0
      {
      }
    }
  }

  /** The empty cache, where every process starts, is valid. */
  lemma EmptyValid<Q>(isEqual: (Q, Q) -> bool)
    ensures Valid([], isEqual)
  {
  }

  /** In a valid cache under a reflexive `isEqual`, every entry's own query resolves to its id. */
  lemma ValidEntriesReachable<Q(!new)>(c: Cache<Q>, isEqual: (Q, Q) -> bool, j: nat, freshId: string)
    requires Reflexive(isEqual) && Valid(c, isEqual)
    requires j < |c|
    ensures Resolve(c, isEqual, c[j].0, freshId) == Resolution(c[j].1, c)
  {
    assert isEqual(c[j].0, c[j].0);
  }

  /**
   * A run of resolutions only ever adds entries at the end: every earlier
   * query keeps its position, and under a reflexive `isEqual` its id too.
   */
  lemma {:induction false} ResolveAllExtends<Q(!new)>(c: Cache<Q>, isEqual: (Q, Q) -> bool, qs: seq<Q>, freshIds: seq<string>)
    requires |qs| == |freshIds|
    ensures Queries(c) <= Queries(ResolveAll(c, isEqual, qs, freshIds).cache)
    ensures Reflexive(isEqual) ==> c <= ResolveAll(c, isEqual, qs, freshIds).cache
    ensures |ResolveAll(c, isEqual, qs, freshIds).cache| <= |c| + |qs|
    decreases |qs|
  {
    if |qs| > 0 {
      var first := Resolve(c, isEqual, qs[0], freshIds[0]);
      ResolveAllExtends(first.cache, isEqual, qs[1..], freshIds[1..]);
      if Reflexive(isEqual) {
        assert isEqual(qs[0], qs[0]);
      }
    }
  }

  /** A first match survives any extension of the cache at the end. */
  lemma FirstMatchExtends<Q>(c: Cache<Q>, d: Cache<Q>, isEqual: (Q, Q) -> bool, q: Q)
    requires c <= d
    requires FirstMatch(c, isEqual, q).Just?
    ensures FirstMatch(d, isEqual, q) == FirstMatch(c, isEqual, q)
  {
    var i := FirstMatch(c, isEqual, q).value;
    assert d[i] == c[i];
    forall j | 0 <= j < i
      ensures !isEqual(d[j].0, q)
    {
      assert d[j] == c[j];
    }
  }

  /**
   * After `q` has been resolved (reflexive `isEqual`), the resulting cache's
   * first match for `q` holds the id that was returned.
   */
  lemma ResolveRecords<Q(!new)>(c: Cache<Q>, isEqual: (Q, Q) -> bool, q: Q, freshId: string)
    requires Reflexive(isEqual)
    ensures var r := Resolve(c, isEqual, q, freshId);
            FirstMatch(r.cache, isEqual, q).Just? && r.cache[FirstMatch(r.cache, isEqual, q).value].1 == r.id
  {
    var r := Resolve(c, isEqual, q, freshId);
    if FirstMatch(c, isEqual, q).Just? {
    } else {
      assert isEqual(q, q);
      assert r.cache == c + [(q, freshId)];
      assert isEqual(r.cache[|c|].0, q);
      forall j | 0 <= j < |c|
        ensures !isEqual(r.cache[j].0, q)
      {
        assert r.cache[j] == c[j];
      }
    }
  }

  /** Resolving the same query twice (reflexive `isEqual`) gives the same id and does not grow the cache. */
  lemma ResolveIdempotent<Q(!new)>(c: Cache<Q>, isEqual: (Q, Q) -> bool, q: Q, freshId: string, freshId': string)
    requires Reflexive(isEqual)
    ensures var r := Resolve(c, isEqual, q, freshId);
            Resolve(r.cache, isEqual, q, freshId') == r
  {
    ResolveRecords(c, isEqual, q, freshId);
  }

  /**
   * The id a query is given stays its id for the life of the cache: after
   * any further resolutions, resolving it again returns the same id and
   * leaves the cache alone (reflexive `isEqual`).
   */
  lemma ResolveStable<Q(!new)>(c: Cache<Q>, isEqual: (Q, Q) -> bool, q: Q, freshId: string,
                               qs: seq<Q>, freshIds: seq<string>, freshId': string)
    requires Reflexive(isEqual)
    requires |qs| == |freshIds|
    ensures var r := Resolve(c, isEqual, q, freshId);
            var run := ResolveAll(r.cache, isEqual, qs, freshIds);
            Resolve(run.cache, isEqual, q, freshId') == Resolution(r.id, run.cache)
  {
    var r := Resolve(c, isEqual, q, freshId);
    ResolveAllExtends(r.cache, isEqual, qs, freshIds);
    ResolveConsistent(c, isEqual, q, freshId, ResolveAll(r.cache, isEqual, qs, freshIds).cache, q, freshId');
  }

  /**
   * Once `q1` has been resolved, every later cache (each one extends the
   * cache it left, by `ResolveAllExtends`) resolves any query accepted by
   * the same cached queries as `q1` to the id `q1` got, and is left as it
   * is (reflexive `isEqual`). Under an equivalence, any query equal to `q1`
   * qualifies (`EqualQueriesSameAcceptance`).
   */
  lemma ResolveConsistent<Q(!new)>(c: Cache<Q>, isEqual: (Q, Q) -> bool, q1: Q, freshId1: string,
                                   later: Cache<Q>, q2: Q, freshId2: string)
    requires Reflexive(isEqual)
    requires SameAcceptance(isEqual, q1, q2)
    requires Resolve(c, isEqual, q1, freshId1).cache <= later
    ensures Resolve(later, isEqual, q2, freshId2) == Resolution(Resolve(c, isEqual, q1, freshId1).id, later)
  {
    var r := Resolve(c, isEqual, q1, freshId1);
    ResolveRecords(c, isEqual, q1, freshId1);
    FirstMatchExtends(r.cache, later, isEqual, q1);
    var i := FirstMatch(later, isEqual, q1).value;
    assert isEqual(later[i].0, q2);
    forall j | 0 <= j < i
      ensures !isEqual(later[j].0, q2)
    {
      assert !isEqual(later[j].0, q1);
    }
  }

  /**
   * Every id a run hands out is still the id its query resolves to once the
   * run is over (reflexive `isEqual`).
   */
  lemma {:induction false} ResolveAllFaithful<Q(!new)>(c: Cache<Q>, isEqual: (Q, Q) -> bool, qs: seq<Q>, freshIds: seq<string>,
                                                      k: nat, freshId: string)
    requires Reflexive(isEqual)
    requires |qs| == |freshIds| && k < |qs|
    ensures var run := ResolveAll(c, isEqual, qs, freshIds);
            Resolve(run.cache, isEqual, qs[k], freshId) == Resolution(run.ids[k], run.cache)
    decreases |qs|
  {
    var first := Resolve(c, isEqual, qs[0], freshIds[0]);
    if k == 0 {
      ResolveStable(c, isEqual, qs[0], freshIds[0], qs[1..], freshIds[1..], freshId);
    } else {
      ResolveAllFaithful(first.cache, isEqual, qs[1..], freshIds[1..], k - 1, freshId);
    }
  }
}
