/**
 * The subscription keys of the Firestore hooks. Each hook hands its
 * observable to the shared subscription hook under a key string; hook calls
 * with equal keys share one subscription, calls with different keys do not.
 * A key is built from a fixed operation tag, the app name and document path
 * (document hooks) or the query's cached id (collection hooks), and, for the
 * unwrapping hooks, the id field as interpolated into a template literal.
 */
module Firestore {
  import opened Js
  import opened KeyText
  import QueryCache

  /** One hook call, reduced to what goes into its key. */
  datatype Call =
    | Doc(app: string, path: string)
    | DocOnce(app: string, path: string)
    | DocData(app: string, path: string, idField: Maybe<string>)
    | DocDataOnce(app: string, path: string, idField: Maybe<string>)
    | Collection(queryId: string)
    | CollectionData(queryId: string, idField: Maybe<string>)

  /** The key string each hook passes along with its observable. */
  function Key(c: Call): (r: string)
    ensures |r| > 10 && r[..10] == "firestore:"
  {
    match c
    case Doc(app, path) => "firestore:doc:" + app + ":" + path
    case DocOnce(app, path) => "firestore:docOnce:" + app + ":" + path
    case DocData(app, path, f) => "firestore:docData:" + app + ":" + path + ":idField=" + Interpolate(f)
    case DocDataOnce(app, path, f) => "firestore:docDataOnce:" + app + ":" + path + ":idField=" + Interpolate(f)
    case Collection(id) => "firestore:collection:" + id
    case CollectionData(id, f) => "firestore:collectionData:" + id + ":idField=" + Interpolate(f)
  }

  /** The key `preloadFirestoreDoc` warms up: the very key `useFirestoreDoc` later reads. */
  function PreloadDocKey(app: string, path: string): (r: string)
    ensures r == Key(Doc(app, path))
  {
    "firestore:doc:" + app + ":" + path
  }

  /** The operation tag written after `firestore:`. */
  function Tag(c: Call): string
  {
    match c
    case Doc(_, _) => "doc"
    case DocOnce(_, _) => "docOnce"
    case DocData(_, _, _) => "docData"
    case DocDataOnce(_, _, _) => "docDataOnce"
    case Collection(_) => "collection"
    case CollectionData(_, _) => "collectionData"
  }

  /** What follows the tag and its ':'. */
  function Body(c: Call): string
  {
    match c
    case Doc(app, path) => app + ":" + path
    case DocOnce(app, path) => app + ":" + path
    case DocData(app, path, f) => app + ":" + (path + ":" + ("idField=" + Interpolate(f)))
    case DocDataOnce(app, path, f) => app + ":" + (path + ":" + ("idField=" + Interpolate(f)))
    case Collection(id) => id
    case CollectionData(id, f) => id + ":" + ("idField=" + Interpolate(f))
  }

  lemma KeyLayout(c: Call)
    ensures Key(c) == "firestore:" + Tag(c) + ":" + Body(c)
  {
    match c
    case Doc(app, path) =>
      assert "firestore:doc:" == "firestore:" + "doc" + ":";
      RegroupPair("firestore:doc:", app, path);
    case DocOnce(app, path) =>
      assert "firestore:docOnce:" == "firestore:" + "docOnce" + ":";
      RegroupPair("firestore:docOnce:", app, path);
    case DocData(app, path, f) =>
      assert "firestore:docData:" == "firestore:" + "docData" + ":";
      RegroupTriple("firestore:docData:", app, path, Interpolate(f));
    case DocDataOnce(app, path, f) =>
      assert "firestore:docDataOnce:" == "firestore:" + "docDataOnce" + ":";
      RegroupTriple("firestore:docDataOnce:", app, path, Interpolate(f));
    case Collection(id) =>
      assert "firestore:collection:" == "firestore:" + "collection" + ":";
    case CollectionData(id, f) =>
      assert "firestore:collectionData:" == "firestore:" + "collectionData" + ":";
      RegroupSuffix("firestore:collectionData:", id, Interpolate(f));
  }

  predicate SameKind(c1: Call, c2: Call)
  {
    || (c1.Doc? && c2.Doc?)
    || (c1.DocOnce? && c2.DocOnce?)
    || (c1.DocData? && c2.DocData?)
    || (c1.DocDataOnce? && c2.DocDataOnce?)
    || (c1.Collection? && c2.Collection?)
    || (c1.CollectionData? && c2.CollectionData?)
  }

  /**
   * The calls that ought to share a subscription: the same hook on the same
   * app and path, or on the same query id, with id fields that render alike.
   */
  predicate SameSubscription(c1: Call, c2: Call)
  {
    match (c1, c2)
    case (Doc(a1, p1), Doc(a2, p2)) => a1 == a2 && p1 == p2
    case (DocOnce(a1, p1), DocOnce(a2, p2)) => a1 == a2 && p1 == p2
    case (DocData(a1, p1, f1), DocData(a2, p2, f2)) =>
      a1 == a2 && p1 == p2 && Interpolate(f1) == Interpolate(f2)
    case (DocDataOnce(a1, p1, f1), DocDataOnce(a2, p2, f2)) =>
      a1 == a2 && p1 == p2 && Interpolate(f1) == Interpolate(f2)
    case (Collection(q1), Collection(q2)) => q1 == q2
    case (CollectionData(q1, f1), CollectionData(q2, f2)) => q1 == q2 && Interpolate(f1) == Interpolate(f2)
    case _ => false
  }

  /**
   * The parts a key can be cut back into unambiguously: the app name holds no
   * ':', and neither does the rendered id field.
   */
  predicate WellFormed(c: Call)
  {
    match c
    case Doc(app, _) => ColonFree(app)
    case DocOnce(app, _) => ColonFree(app)
    case DocData(app, _, f) => ColonFree(app) && ColonFree(Interpolate(f))
    case DocDataOnce(app, _, f) => ColonFree(app) && ColonFree(Interpolate(f))
    case Collection(_) => true
    case CollectionData(_, f) => ColonFree(Interpolate(f))
  }

  /** A key fixes the hook's tag and the text after it, for any inputs. */
  lemma KeyDeterminesTag(c1: Call, c2: Call)
    requires Key(c1) == Key(c2)
    ensures Tag(c1) == Tag(c2) && Body(c1) == Body(c2)
  {
    KeyLayout(c1);
    KeyLayout(c2);
    TagColonFree(c1);
    TagColonFree(c2);
    SplitTagged("firestore:", Tag(c1), Body(c1), Tag(c2), Body(c2));
  }

  lemma TagColonFree(c: Call)
    ensures ColonFree(Tag(c))
  {
  }

  /**
   * Different hooks never share a subscription, whatever the app names,
   * paths, query ids and id fields: the tags diverge at a fixed position.
   */
  lemma KindsSeparate(c1: Call, c2: Call)
    requires !SameKind(c1, c2)
    ensures Key(c1) != Key(c2)
  {
    if Key(c1) == Key(c2) {
      KeyDeterminesTag(c1, c2);
      assert false;
    }
  }

  predicate HasIdField(c: Call)
  {
    c.DocData? || c.DocDataOnce? || c.CollectionData?
  }

  /** The same unwrapping call with its id field replaced. */
  function WithIdField(c: Call, f: Maybe<string>): Call
    requires HasIdField(c)
  {
    match c
    case DocData(app, path, _) => DocData(app, path, f)
    case DocDataOnce(app, path, _) => DocDataOnce(app, path, f)
    case CollectionData(id, _) => CollectionData(id, f)
  }

  /**
   * An unwrapping hook on the same app and path (or query id) gets a separate
   * subscription for each rendering of its id field, with no condition on
   * the other parts.
   */
  lemma IdFieldSeparates(c: Call, f1: Maybe<string>, f2: Maybe<string>)
    requires HasIdField(c)
    requires Interpolate(f1) != Interpolate(f2)
    ensures Key(WithIdField(c, f1)) != Key(WithIdField(c, f2))
  {
    var stem := match c
      case DocData(app, path, _) => "firestore:docData:" + app + ":" + path + ":idField="
      case DocDataOnce(app, path, _) => "firestore:docDataOnce:" + app + ":" + path + ":idField="
      case CollectionData(id, _) => "firestore:collectionData:" + id + ":idField=";
    assert Key(WithIdField(c, f1)) == stem + Interpolate(f1);
    assert Key(WithIdField(c, f2)) == stem + Interpolate(f2);
    if Key(WithIdField(c, f1)) == Key(WithIdField(c, f2)) {
      CancelPrefix(stem, Interpolate(f1), Interpolate(f2));
    }
  }

  /** An absent id field renders as the text `undefined`, so it shares keys with a field of that name. */
  lemma UndefinedIdFieldRendersAsText(c: Call)
    requires HasIdField(c)
    ensures Key(WithIdField(c, Nothing)) == Key(WithIdField(c, Just("undefined")))
  {
  }

  /**
   * For well-formed calls, equal keys mean exactly the same subscription:
   * the same hook, app name and path (or query id), and id field rendering.
   */
  lemma KeyInjective(c1: Call, c2: Call)
    requires WellFormed(c1) && WellFormed(c2)
    ensures Key(c1) == Key(c2) <==> SameSubscription(c1, c2)
  {
    if Key(c1) == Key(c2) {
      KeyDeterminesTag(c1, c2);
      if !SameKind(c1, c2) {
        KindsSeparate(c1, c2);
      }
      match (c1, c2)
      case (Doc(a1, p1), Doc(a2, p2)) =>
        SplitAtFirstColon(a1, p1, a2, p2);
      case (DocOnce(a1, p1), DocOnce(a2, p2)) =>
        SplitAtFirstColon(a1, p1, a2, p2);
      case (DocData(a1, p1, f1), DocData(a2, p2, f2)) =>
        SplitIdFieldBody(a1, p1, f1, a2, p2, f2);
      case (DocDataOnce(a1, p1, f1), DocDataOnce(a2, p2, f2)) =>
        SplitIdFieldBody(a1, p1, f1, a2, p2, f2);
      case (Collection(q1), Collection(q2)) =>
      case (CollectionData(q1, f1), CollectionData(q2, f2)) =>
        SplitIdFieldSuffix(q1, Interpolate(f1), q2, Interpolate(f2));
    }
  }

  lemma SplitIdFieldBody(a1: string, p1: string, f1: Maybe<string>, a2: string, p2: string, f2: Maybe<string>)
    requires ColonFree(a1) && ColonFree(a2)
    requires ColonFree(Interpolate(f1)) && ColonFree(Interpolate(f2))
    requires a1 + ":" + (p1 + ":" + ("idField=" + Interpolate(f1))) == a2 + ":" + (p2 + ":" + ("idField=" + Interpolate(f2)))
    ensures a1 == a2 && p1 == p2 && Interpolate(f1) == Interpolate(f2)
  {
    SplitAtFirstColon(a1, p1 + ":" + ("idField=" + Interpolate(f1)), a2, p2 + ":" + ("idField=" + Interpolate(f2)));
    SplitIdFieldSuffix(p1, Interpolate(f1), p2, Interpolate(f2));
  }

  /** Without well-formedness keys can collide: a ':' in the app name moves the split. */
  lemma ColonInAppNameCollides()
    ensures Key(Doc("a:b", "c")) == Key(Doc("a", "b:c"))
    ensures !SameSubscription(Doc("a:b", "c"), Doc("a", "b:c"))
  {
  }

  /**
   * Without well-formedness an id field can collide too: a ':' in the id
   * field moves the split between the path and the id field.
   */
  lemma ColonInIdFieldCollides()
    ensures Key(DocData("a", "p:idField=x", Just("y"))) == Key(DocData("a", "p", Just("x:idField=y")))
    ensures !SameSubscription(DocData("a", "p:idField=x", Just("y")), DocData("a", "p", Just("x:idField=y")))
  {
  }

  /** `useFirestoreCollection`: the key for the query's cached id, and the cache afterwards. */
  function CollectionHook<Q(==)>(cache: QueryCache.Cache<Q>, isEqual: (Q, Q) -> bool, query: Q, freshId: string)
    : (r: (string, QueryCache.Cache<Q>))
    ensures |r.0| >= 21 && r.0[..21] == "firestore:collection:"
    ensures QueryCache.FirstMatch(cache, isEqual, query).Just? ==>
              r == (Key(Collection(cache[QueryCache.FirstMatch(cache, isEqual, query).value].1)), cache)
    ensures QueryCache.FirstMatch(cache, isEqual, query).Nothing? ==> r.0 == Key(Collection(freshId))
    ensures QueryCache.Queries(cache) <= QueryCache.Queries(r.1)
    ensures |cache| <= |r.1| <= |cache| + 1
  {
    var res := QueryCache.Resolve(cache, isEqual, query, freshId);
    (Key(Collection(res.id)), res.cache)
  }

  /** `useFirestoreCollectionData`: the same lookup, with the id field appended to the key. */
  function CollectionDataHook<Q(==)>(cache: QueryCache.Cache<Q>, isEqual: (Q, Q) -> bool, query: Q, freshId: string,
                                     idField: Maybe<string>)
    : (r: (string, QueryCache.Cache<Q>))
    ensures |r.0| > 25 && r.0[..25] == "firestore:collectionData:"
    ensures QueryCache.FirstMatch(cache, isEqual, query).Just? ==>
              r == (Key(CollectionData(cache[QueryCache.FirstMatch(cache, isEqual, query).value].1, idField)), cache)
    ensures QueryCache.FirstMatch(cache, isEqual, query).Nothing? ==> r.0 == Key(CollectionData(freshId, idField))
    ensures QueryCache.Queries(cache) <= QueryCache.Queries(r.1)
    ensures |cache| <= |r.1| <= |cache| + 1
  {
    var res := QueryCache.Resolve(cache, isEqual, query, freshId);
    (Key(CollectionData(res.id, idField)), res.cache)
  }

  /**
   * Two collection hook calls on the same query, or on queries accepted by
   * the same cached queries (any two equal queries under an equivalence),
   * share one subscription, however many other queries were resolved in
   * between, and the second call leaves the cache as it found it. Likewise
   * for the unwrapping hook with the same id field.
   */
  lemma CollectionKeysShared<Q(!new)>(cache: QueryCache.Cache<Q>, isEqual: (Q, Q) -> bool, q1: Q, freshId1: string,
                                     later: QueryCache.Cache<Q>, q2: Q, freshId2: string, idField: Maybe<string>)
    requires QueryCache.Reflexive(isEqual)
    requires QueryCache.SameAcceptance(isEqual, q1, q2)
    requires CollectionHook(cache, isEqual, q1, freshId1).1 <= later
    ensures CollectionHook(later, isEqual, q2, freshId2) == (CollectionHook(cache, isEqual, q1, freshId1).0, later)
    ensures CollectionDataHook(later, isEqual, q2, freshId2, idField) == (CollectionDataHook(cache, isEqual, q1, freshId1, idField).0, later)
  {
    QueryCache.ResolveConsistent(cache, isEqual, q1, freshId1, later, q2, freshId2);
  }
}
