# reactfire: query-identity cache, snapshot unwrapping and subscription keys

reactfire exposes Firebase data as React hook results. Every hook hands an
observable to a shared subscription hook under a key string, and hook calls
with equal keys share one subscription. This project models the pure logic
that decides those keys, and the one data transformation done in the hooks:

- **Query-identity cache** (`QueryCache`). `getUnqiueIdForFirestoreQuery` and
  `getUnqiueIdForDatabaseQuery` have identical logic, so both are modelled by
  `QueryCache.Resolve`. The cache is an insertion-ordered list of
  (query, id) entries. A lookup scans it with the backend's `isEqual`: the
  cached query is the receiver and the new query the argument. A hit returns
  the first match's id. A miss stores a caller-supplied id with `Map.set`. The
  cache is a JavaScript `Map`, so its keys are compared by object identity,
  which Dafny's `==` on the opaque query type stands for. `Map.set` on a query
  object that is already a key overwrites that entry's id in place. This can
  only happen when `isEqual` is not reflexive at that query, and `MapSet`
  models it. Nothing assumes `isEqual` is reflexive, symmetric or transitive
  unless a lemma says so. The Firestore hooks and the Database hooks each keep
  their own cache.
- **Subscription keys** (`Firestore.Key`, `Database.Key`). These are the
  template strings of every hook: a `firestore:` or `database:` namespace, an
  operation tag, then the app name and document path, the reference's string
  form, or the resolved query id, and, for the unwrapping hooks,
  `:idField=` followed by the id field. An undefined id field is rendered as
  the text `undefined`. The lemmas prove three things. Different hooks never
  share a key. The same unwrapping hook on the same app and path (or query
  id) gets a different key for each rendering of the id field. Equal keys
  mean the same subscription whenever the parts can be split back apart,
  which needs no `:` in the app name or the id field. Concrete lemmas show
  the collisions that a `:` in the app name or in the id field causes
  otherwise.
- **Snapshot unwrapping** (`Database.ChangeToData`). This models
  `changeToData` over a JSON-like value. A value whose `typeof` is not
  `object` is returned unchanged. Any other value, `null` included, is spread
  into a fresh object. A truthy key field then receives the snapshot's key,
  overriding any field of that name. A `null` key is injected as `null`.

The module `Js` holds the JavaScript notions used throughout: optional
values, template interpolation, truthiness and `typeof`. The module `KeyText`
holds the facts about splitting `:`-separated strings, and the module
`Namespaces` proves that the two hook families' keys never meet.

## Model

| member | source | states |
|---|---|---|
| QueryCache.FirstMatch | reactfire/database/index.tsx:18-22 | the scan finds the least position whose cached query accepts the new one, with the cached query as receiver; it finds nothing exactly when no entry accepts it |
| QueryCache.MapSet | reactfire/firestore/index.tsx:26 | storing a query that is not yet a key appends one entry at the end; storing one that is already a key keeps every position and changes only that entry's id |
| QueryCache.Resolve | reactfire/firestore/index.tsx:17-28 | on a hit it returns the first matching entry's id and leaves the cache unchanged; on a miss it returns the supplied id and stores it with `Map.set`; cached queries are only ever extended at the end, by at most one; if `isEqual(q, q)` holds, the old cache is a prefix of the new one |
| QueryCache.ResolvePreservesValid | reactfire/firestore/index.tsx:17-28 | whatever `isEqual` is, resolution keeps the cache's queries distinct and keeps every entry unaccepted by all earlier ones |
| QueryCache.EmptyValid | reactfire/firestore/index.tsx:11 | the empty map a process starts with satisfies that invariant |
| QueryCache.ValidEntriesReachable | reactfire/firestore/index.tsx:18-21 | in a valid cache under a reflexive `isEqual`, looking up an entry's own query returns that entry's id and changes nothing |
| QueryCache.ResolveAll | reactfire/firestore/index.tsx:11-27 | a run of lookups on one cache hands out one id per call, only ever extends the cached queries at the end, and grows the cache by at most one entry per call |
| QueryCache.ResolveAllExtends | reactfire/firestore/index.tsx:11-27 | across any run of resolutions every earlier query keeps its position; under a reflexive `isEqual` every earlier entry also keeps its id; the cache grows by at most one entry per call |
| QueryCache.FirstMatchExtends | reactfire/firestore/index.tsx:18-22 | appending entries never changes the position a scan already finds |
| QueryCache.ResolveRecords | reactfire/database/index.tsx:17-28 | under a reflexive `isEqual`, after resolving a query, the first match for it in the new cache holds the returned id |
| QueryCache.ResolveIdempotent | reactfire/firestore/index.tsx:18-27 | under a reflexive `isEqual`, resolving the same query a second time returns the same id and leaves the cache as it is |
| QueryCache.ResolveStable | reactfire/firestore/index.tsx:11-27 | under a reflexive `isEqual`, a query resolved again after any other resolutions gets its original id back, with the cache unchanged |
| QueryCache.ResolveConsistent | reactfire/firestore/index.tsx:17-28 | under a reflexive `isEqual`, once `q1` has been resolved, every later cache that keeps the cache it left as a prefix resolves `q1`, or any query accepted by the same cached queries, to the id `q1` got, and is left unchanged |
| QueryCache.EqualQueriesSameAcceptance | reactfire/firestore/index.tsx:19 | when `isEqual` is an equivalence, two equal queries are accepted by exactly the same cached queries, so they resolve alike |
| QueryCache.ResolveAllFaithful | reactfire/database/index.tsx:17-28 | under a reflexive `isEqual`, every id a run hands out is still the id its query resolves to once the run is over |
| Firestore.Key | reactfire/firestore/index.tsx:53-121 | every Firestore hook key begins with `firestore:` |
| Firestore.PreloadDocKey | reactfire/firestore/index.tsx:43 | the key preloading warms is exactly the key `useFirestoreDoc` reads for the same app name and path |
| Firestore.KeyLayout | reactfire/firestore/index.tsx:54-118 | each key is the namespace, the hook's tag, a `:` and the hook-specific rest |
| Firestore.KeyDeterminesTag | reactfire/firestore/index.tsx:54-118 | equal keys have equal tags and equal rests, for any inputs |
| Firestore.KindsSeparate | reactfire/firestore/index.tsx:54-118 | `doc`, `docOnce`, `docData`, `docDataOnce`, `collection` and `collectionData` keys never coincide, for any app names, paths, query ids and id fields |
| Firestore.IdFieldSeparates | reactfire/firestore/index.tsx:76-121 | `docData`, `docDataOnce` and `collectionData` keys for the same app and path (or query id) differ whenever the id fields render differently |
| Firestore.UndefinedIdFieldRendersAsText | reactfire/firestore/index.tsx:77-78 | an undefined id field gives the same key as an id field named `undefined` |
| Firestore.KeyInjective | reactfire/firestore/index.tsx:53-121 | when app names and id fields hold no `:`, two calls have equal keys if and only if they are the same hook with the same app and path (or query id) and the same rendered id field |
| Firestore.SplitIdFieldBody | reactfire/firestore/index.tsx:78 | under the same condition, the text after a `docData` tag determines the app name, the path and the id field |
| Firestore.ColonInAppNameCollides | reactfire/firestore/index.tsx:54 | an app name containing `:` lets two different document calls share a key |
| Firestore.ColonInIdFieldCollides | reactfire/firestore/index.tsx:78 | an id field containing `:` lets two different `docData` calls share a key |
| Firestore.CollectionHook | reactfire/firestore/index.tsx:102-108 | the key begins with `firestore:collection:`; on a hit it carries the first matching entry's id and the cache is unchanged; on a miss it carries the supplied id; cached queries are only extended at the end, by at most one |
| Firestore.CollectionDataHook | reactfire/firestore/index.tsx:116-121 | the same for `useFirestoreCollectionData`, with a key beginning `firestore:collectionData:` and ending in the id field |
| Firestore.CollectionKeysShared | reactfire/firestore/index.tsx:102-121 | under a reflexive `isEqual`, a collection hook called on any later cache, with the same query or one accepted by the same cached queries, gets the key the first call got and leaves the cache alone; the same holds for the unwrapping collection hook with the same id field |
| Database.Key | reactfire/database/index.tsx:36-86 | every Realtime Database hook key begins with `database:` |
| Database.KeyLayout | reactfire/database/index.tsx:37-85 | each key is the namespace, the hook's tag, a `:` and the hook-specific rest |
| Database.KeyDeterminesTag | reactfire/database/index.tsx:37-85 | equal keys have equal tags and equal rests, for any inputs |
| Database.KindsSeparate | reactfire/database/index.tsx:37-85 | `object`, `objectVal`, `list` and `listVal` keys never coincide, for any references, query ids and id fields |
| Namespaces.NamespacesSeparate | reactfire/database/index.tsx:37 | no Realtime Database key is ever equal to a Firestore key |
| Database.IdFieldSeparates | reactfire/database/index.tsx:63-86 | `objectVal` and `listVal` keys for the same reference (or query id) differ whenever the id fields render differently |
| Database.UndefinedIdFieldRendersAsText | reactfire/database/index.tsx:64-65 | an undefined id field gives the same key as an id field named `undefined` |
| Database.KeyInjective | reactfire/database/index.tsx:36-86 | when id fields hold no `:`, two calls have equal keys if and only if they are the same hook with the same reference (or query id) and the same rendered id field |
| Database.ColonInIdFieldCollides | reactfire/database/index.tsx:85 | an id field containing `:` lets two different `listVal` calls share a key |
| Database.ListHook | reactfire/database/index.tsx:74-81 | the key begins with `database:list:`; on a hit it carries the first matching entry's id and the cache is unchanged; on a miss it carries the supplied id; cached queries are only extended at the end, by at most one |
| Database.ListValHook | reactfire/database/index.tsx:83-86 | the same for `useDatabaseListData`, with a key beginning `database:listVal:` and ending in the id field |
| Database.ListKeysStable | reactfire/database/index.tsx:74-86 | under a reflexive `isEqual`, `list` and `listVal` keys for the same query, or for one accepted by the same cached queries, are the same on any later cache, and the second call leaves the cache alone |
| Database.ChangeToData | reactfire/database/index.tsx:48-60 | a value not of type `object` comes back unchanged whatever the key field; an object or `null` becomes an object; with a truthy key field it holds every payload field except that the key field maps to the snapshot key; without one it holds exactly the payload's fields |
| Database.ChangeToDataIdempotent | reactfire/database/index.tsx:48-60 | unwrapping an unwrapped record again with the same key and key field changes nothing |
| Database.ChangeToDataRemoveKey | reactfire/database/index.tsx:56-59 | removing the injected field gives back exactly the payload's fields when the payload lacked that field; with no truthy key field an object payload comes back equal |
| Database.ChangeToDataNull | reactfire/database/index.tsx:52-59 | a `null` value is spread: the result is `{}`, or `{[keyField]: key}` with a truthy key field |
| Database.ChangeToDataExamples | reactfire/database/index.tsx:48-60 | `{a: 1}` with key field `id` and key `k1` gives `{a: 1, id: "k1"}`; `42` stays `42`; an existing `id` field is overridden; an empty key field injects nothing |

## Left out

- The React and subscription machinery (`useObservable`, `preloadObservable`) is not part of this model. It lies outside these files, so the model stops at the key string each hook passes to it.
- The rxfire observables (`doc`, `docData`, `collectionData`, `fromCollectionRef`, `list`, `listVal`, `object`) and the rxjs `first()` and `map` pipelines are streaming code from other libraries. Only the per-change `changeToData` mapping that `objectVal` applies is modelled.
- `preloadFirestoreDoc` loads the SDK through a promise and picks the app from its options or from `useFirebaseApp()`. That is I/O plumbing, so only the key it builds is modelled, with the app name as an input.
- The `globalThis` persistence of the two caches is a host-global side effect. The cache is instead explicit state threaded through the functions.
- `Math.random().toString(36)` id generation is randomness plus float-to-string formatting. Each lookup takes its candidate id as an input, and no uniqueness is claimed.
- A throwing `isEqual` is not modelled: `isEqual` is a total predicate here. In the source an exception raised during the scan leaves the lookup before `Map.set`, so the hook throws, returns no key and leaves the cache as it was.
- The backends' `isEqual`, `ref.path`, `ref.toString()` and `app.name` are backend internals. They are an arbitrary predicate and arbitrary strings here.
- `checkIdField` and `checkStartWithValue` are not part of this model. The id field is an input that is either defined or `undefined`, and start values do not affect keys.
- Database.ChangeToData: snapshot values are `null`, booleans, integers, strings and objects. Floating-point numbers and arrays are not modelled; an array would be spread into an index-keyed object.
