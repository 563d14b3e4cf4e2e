/**
 * The Realtime Database hooks: the subscription keys they build, and
 * `changeToData`, which turns a snapshot into a plain record for
 * `useDatabaseObjectData`. Keys are built from a fixed operation tag, the
 * reference's string form (object hooks) or the query's cached id (list
 * hooks), and, for the unwrapping hooks, the id field as interpolated into a
 * template literal.
 */
module Database {
  import opened Js
  import opened KeyText
  import QueryCache

  /** One hook call, reduced to what goes into its key. */
  datatype Call =
    | ObjectCall(ref: string)
    | ObjectValCall(ref: string, idField: Maybe<string>)
    | ListCall(queryId: string)
    | ListValCall(queryId: string, idField: Maybe<string>)

  /** The key string each hook passes along with its observable. */
  function Key(c: Call): (r: string)
    ensures |r| > 9 && r[..9] == "database:"
  {
    match c
    case ObjectCall(ref) => "database:object:" + ref
    case ObjectValCall(ref, f) => "database:objectVal:" + ref + ":idField=" + Interpolate(f)
    case ListCall(id) => "database:list:" + id
    case ListValCall(id, f) => "database:listVal:" + id + ":idField=" + Interpolate(f)
  }

  /** The operation tag written after `database:`. */
  function Tag(c: Call): string
  {
    match c
    case ObjectCall(_) => "object"
    case ObjectValCall(_, _) => "objectVal"
    case ListCall(_) => "list"
    case ListValCall(_, _) => "listVal"
  }

  /** What follows the tag and its ':'. */
  function Body(c: Call): string
  {
    match c
    case ObjectCall(ref) => ref
    case ObjectValCall(ref, f) => ref + ":" + ("idField=" + Interpolate(f))
    case ListCall(id) => id
    case ListValCall(id, f) => id + ":" + ("idField=" + Interpolate(f))
  }

  lemma KeyLayout(c: Call)
    ensures Key(c) == "database:" + Tag(c) + ":" + Body(c)
  {
    match c
    case ObjectCall(ref) =>
      assert "database:object:" == "database:" + "object" + ":";
    case ObjectValCall(ref, f) =>
      assert "database:objectVal:" == "database:" + "objectVal" + ":";
      RegroupSuffix("database:objectVal:", ref, Interpolate(f));
    case ListCall(id) =>
      assert "database:list:" == "database:" + "list" + ":";
    case ListValCall(id, f) =>
      assert "database:listVal:" == "database:" + "listVal" + ":";
      RegroupSuffix("database:listVal:", id, Interpolate(f));
  }

  lemma TagColonFree(c: Call)
    ensures ColonFree(Tag(c))
  {
  }

  predicate SameKind(c1: Call, c2: Call)
  {
    || (c1.ObjectCall? && c2.ObjectCall?)
    || (c1.ObjectValCall? && c2.ObjectValCall?)
    || (c1.ListCall? && c2.ListCall?)
    || (c1.ListValCall? && c2.ListValCall?)
  }

  /**
   * The calls that ought to share a subscription: the same hook on the same
   * reference or query id, with id fields that render alike.
   */
  predicate SameSubscription(c1: Call, c2: Call)
  {
    match (c1, c2)
    case (ObjectCall(r1), ObjectCall(r2)) => r1 == r2
    case (ObjectValCall(r1, f1), ObjectValCall(r2, f2)) => r1 == r2 && Interpolate(f1) == Interpolate(f2)
    case (ListCall(q1), ListCall(q2)) => q1 == q2
    case (ListValCall(q1, f1), ListValCall(q2, f2)) => q1 == q2 && Interpolate(f1) == Interpolate(f2)
    case _ => false
  }

  /**
   * The parts a key can be cut back into unambiguously: the rendered id field
   * holds no ':'. References may hold any text (their string form is a URL).
   */
  predicate WellFormed(c: Call)
  {
    match c
    case ObjectCall(_) => true
    case ObjectValCall(_, f) => ColonFree(Interpolate(f))
    case ListCall(_) => true
    case ListValCall(_, f) => ColonFree(Interpolate(f))
  }

  /** A key fixes the hook's tag and the text after it, for any inputs. */
  lemma KeyDeterminesTag(c1: Call, c2: Call)
    requires Key(c1) == Key(c2)
    ensures Tag(c1) == Tag(c2) && Body(c1) == Body(c2)
  {
    KeyLayout(c1);
    KeyLayout(c2);
    TagColonFree(c1);
    TagColonFree(c2);
    SplitTagged("database:", Tag(c1), Body(c1), Tag(c2), Body(c2));
  }

  /**
   * Different hooks never share a subscription, whatever the references,
   * query ids and id fields: `object` and `objectVal` (and `list` and
   * `listVal`) part at the character after the common tag stem.
   */
  lemma KindsSeparate(c1: Call, c2: Call)
    requires !SameKind(c1, c2)
    ensures Key(c1) != Key(c2)
  {
    if Key(c1) == Key(c2) {
      KeyDeterminesTag(c1, c2);
      assert false;
    }
  }

  predicate HasIdField(c: Call)
  {
    c.ObjectValCall? || c.ListValCall?
  }

  /** The same unwrapping call with its id field replaced. */
  function WithIdField(c: Call, f: Maybe<string>): Call
    requires HasIdField(c)
  {
    match c
    case ObjectValCall(ref, _) => ObjectValCall(ref, f)
    case ListValCall(id, _) => ListValCall(id, f)
  }

  /**
   * An unwrapping hook on the same reference (or query id) gets a separate
   * subscription for each rendering of its id field, with no condition on
   * the other parts.
   */
  lemma IdFieldSeparates(c: Call, f1: Maybe<string>, f2: Maybe<string>)
    requires HasIdField(c)
    requires Interpolate(f1) != Interpolate(f2)
    ensures Key(WithIdField(c, f1)) != Key(WithIdField(c, f2))
  {
    var stem := match c
      case ObjectValCall(ref, _) => "database:objectVal:" + ref + ":idField="
      case ListValCall(id, _) => "database:listVal:" + id + ":idField=";
    assert Key(WithIdField(c, f1)) == stem + Interpolate(f1);
    assert Key(WithIdField(c, f2)) == stem + Interpolate(f2);
    if Key(WithIdField(c, f1)) == Key(WithIdField(c, f2)) {
      CancelPrefix(stem, Interpolate(f1), Interpolate(f2));
    }
  }

  /** An absent id field renders as the text `undefined`, so it shares keys with a field of that name. */
  lemma UndefinedIdFieldRendersAsText(c: Call)
    requires HasIdField(c)
    ensures Key(WithIdField(c, Nothing)) == Key(WithIdField(c, Just("undefined")))
  {
  }

  /**
   * For well-formed calls, equal keys mean exactly the same subscription:
   * the same hook, reference (or query id) and id field rendering.
   */
  lemma KeyInjective(c1: Call, c2: Call)
    requires WellFormed(c1) && WellFormed(c2)
    ensures Key(c1) == Key(c2) <==> SameSubscription(c1, c2)
  {
    if Key(c1) == Key(c2) {
      KeyDeterminesTag(c1, c2);
      if !SameKind(c1, c2) {
        KindsSeparate(c1, c2);
      }
      match (c1, c2)
      case (ObjectCall(r1), ObjectCall(r2)) =>
      case (ObjectValCall(r1, f1), ObjectValCall(r2, f2)) =>
        SplitIdFieldSuffix(r1, Interpolate(f1), r2, Interpolate(f2));
      case (ListCall(q1), ListCall(q2)) =>
      case (ListValCall(q1, f1), ListValCall(q2, f2)) =>
        SplitIdFieldSuffix(q1, Interpolate(f1), q2, Interpolate(f2));
    }
  }

  /** A ':' in the id field moves the split between the query id and the id field, so keys can collide. */
  lemma ColonInIdFieldCollides()
    ensures Key(ListValCall("q:idField=x", Just("y"))) == Key(ListValCall("q", Just("x:idField=y")))
    ensures !SameSubscription(ListValCall("q:idField=x", Just("y")), ListValCall("q", Just("x:idField=y")))
  {
  }

  /** `useDatabaseList`: the key for the query's cached id, and the cache afterwards. */
  function ListHook<Q(==)>(cache: QueryCache.Cache<Q>, isEqual: (Q, Q) -> bool, query: Q, freshId: string)
    : (r: (string, QueryCache.Cache<Q>))
    ensures |r.0| >= 14 && r.0[..14] == "database:list:"
    ensures QueryCache.FirstMatch(cache, isEqual, query).Just? ==>
              r == (Key(ListCall(cache[QueryCache.FirstMatch(cache, isEqual, query).value].1)), cache)
    ensures QueryCache.FirstMatch(cache, isEqual, query).Nothing? ==> r.0 == Key(ListCall(freshId))
    ensures QueryCache.Queries(cache) <= QueryCache.Queries(r.1)
    ensures |cache| <= |r.1| <= |cache| + 1
  {
    var res := QueryCache.Resolve(cache, isEqual, query, freshId);
    (Key(ListCall(res.id)), res.cache)
  }

  /** `useDatabaseListData`: the same lookup, with the id field appended to the key. */
  function ListValHook<Q(==)>(cache: QueryCache.Cache<Q>, isEqual: (Q, Q) -> bool, query: Q, freshId: string,
                              idField: Maybe<string>)
    : (r: (string, QueryCache.Cache<Q>))
    ensures |r.0| > 17 && r.0[..17] == "database:listVal:"
    ensures QueryCache.FirstMatch(cache, isEqual, query).Just? ==>
              r == (Key(ListValCall(cache[QueryCache.FirstMatch(cache, isEqual, query).value].1, idField)), cache)
    ensures QueryCache.FirstMatch(cache, isEqual, query).Nothing? ==> r.0 == Key(ListValCall(freshId, idField))
    ensures QueryCache.Queries(cache) <= QueryCache.Queries(r.1)
    ensures |cache| <= |r.1| <= |cache| + 1
  {
    var res := QueryCache.Resolve(cache, isEqual, query, freshId);
    (Key(ListValCall(res.id, idField)), res.cache)
  }

  /**
   * A list hook called again on the same query, or on one accepted by the
   * same cached queries (any equal query under an equivalence), gets the key
   * it got before, however many other queries were resolved in between, and
   * leaves the cache alone.
   */
  lemma ListKeysStable<Q(!new)>(cache: QueryCache.Cache<Q>, isEqual: (Q, Q) -> bool, q1: Q, freshId1: string,
                               later: QueryCache.Cache<Q>, q2: Q, freshId2: string, idField: Maybe<string>)
    requires QueryCache.Reflexive(isEqual)
    requires QueryCache.SameAcceptance(isEqual, q1, q2)
    requires ListHook(cache, isEqual, q1, freshId1).1 <= later
    ensures ListHook(later, isEqual, q2, freshId2) == (ListHook(cache, isEqual, q1, freshId1).0, later)
    ensures ListValHook(later, isEqual, q2, freshId2, idField) == (ListValHook(cache, isEqual, q1, freshId1, idField).0, later)
  {
    QueryCache.ResolveConsistent(cache, isEqual, q1, freshId1, later, q2, freshId2);
  }

  /** What `changeToData` reads from a change: the snapshot's `val()` and its `key` (`null` at the root). */
  datatype Snapshot = Snapshot(val: Value, key: Maybe<string>)

  /** The snapshot key as a value: a string, or `null`. */
  function KeyValue(key: Maybe<string>): Value
  {
    match key
    case Nothing => Null
    case Just(k) => Str(k)
  }

  /**
   * `changeToData`: a value that is not of type `object` comes back as it is;
   * otherwise (`null` included) its own fields are spread into a fresh
   * object, and a truthy `keyField` then receives the snapshot's key.
   */
  function ChangeToData(snap: Snapshot, keyField: Maybe<string>): (r: Value)
    ensures !TypeofObject(snap.val) ==> r == snap.val
    ensures TypeofObject(snap.val) ==> r.Obj?
    ensures TypeofObject(snap.val) && Truthy(keyField) ==>
              && r.fields.Keys == OwnFields(snap.val).Keys + {keyField.value}
              && r.fields[keyField.value] == KeyValue(snap.key)
              && forall k :: k in OwnFields(snap.val) && k != keyField.value ==> r.fields[k] == OwnFields(snap.val)[k]
    ensures TypeofObject(snap.val) && !Truthy(keyField) ==> r.fields == OwnFields(snap.val)
  {
    if !TypeofObject(snap.val) then snap.val
    else
      var copy := OwnFields(snap.val);
      if Truthy(keyField) then Obj(copy[keyField.value := KeyValue(snap.key)]) else Obj(copy)
  }

  /** Unwrapping an already unwrapped record again, with the same key, changes nothing. */
  lemma ChangeToDataIdempotent(snap: Snapshot, keyField: Maybe<string>)
    ensures var r := ChangeToData(snap, keyField);
            ChangeToData(Snapshot(r, snap.key), keyField) == r
  {
  }

  /**
   * Removing the injected field gives back exactly the payload's fields when
   * the payload did not already hold that field; without a truthy key field
   * the record is the payload's fields themselves.
   */
  lemma ChangeToDataRemoveKey(snap: Snapshot, keyField: Maybe<string>)
    requires TypeofObject(snap.val)
    ensures Truthy(keyField) && keyField.value !in OwnFields(snap.val) ==>
              ChangeToData(snap, keyField).fields - {keyField.value} == OwnFields(snap.val)
    ensures !Truthy(keyField) && snap.val.Obj? ==> ChangeToData(snap, keyField) == snap.val
  {
    if Truthy(keyField) && keyField.value !in OwnFields(snap.val) {
      var r := ChangeToData(snap, keyField);
      assert (r.fields - {keyField.value}).Keys == OwnFields(snap.val).Keys;
    }
  }

  /** `null` is spread, not passed through: it becomes `{}` or `{[keyField]: key}`. */
  lemma ChangeToDataNull(key: Maybe<string>, keyField: Maybe<string>)
    ensures ChangeToData(Snapshot(Null, key), keyField)
              == if Truthy(keyField) then Obj(map[keyField.value := KeyValue(key)]) else Obj(map[])
  {
  }

  /** `{a: 1}` with id field `id` and key `k1` gives `{a: 1, id: "k1"}`; `42` stays `42`. */
  lemma ChangeToDataExamples()
    ensures ChangeToData(Snapshot(Obj(map["a" := Num(1)]), Just("k1")), Just("id"))
              == Obj(map["a" := Num(1), "id" := Str("k1")])
    ensures ChangeToData(Snapshot(Num(42), Just("k1")), Just("id")) == Num(42)
    ensures ChangeToData(Snapshot(Obj(map["id" := Num(7)]), Just("k1")), Just("id")) == Obj(map["id" := Str("k1")])
    ensures ChangeToData(Snapshot(Obj(map["a" := Num(1)]), Just("k1")), Just("")) == Obj(map["a" := Num(1)])
  {
  }
}
