/**
 * The two hook families share one subscription registry, so their keys must
 * never meet: every Realtime Database key starts with `database:` and every
 * Firestore key with `firestore:`.
 */
module Namespaces {
  import Firestore
  import Database

  /** No Realtime Database key is ever a Firestore key: the namespaces differ at the first character. */
  lemma NamespacesSeparate(c: Database.Call, d: Firestore.Call)
    ensures Database.Key(c) != Firestore.Key(d)
  {
    assert Database.Key(c)[0] == Database.Key(c)[..9][0] == 'd';
    assert Firestore.Key(d)[0] == Firestore.Key(d)[..10][0] == 'f';
  }
}
