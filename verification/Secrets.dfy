/**
 Filling secrets into a snapshot before a run (backend/src/utils/secrets.rs:488-524):
 every string, anywhere in the JSON value, that reads "group:service:name" and names a
 stored secret is replaced by its plaintext. Object keys are left alone.
 */
module Secrets {
  import opened JsonValues
  import Text

  /** Plaintexts by [group, service, name]. */
  type SecretStore = map<seq<string>, string>

  function Resolve(s: string, store: SecretStore): string {
    var parts := Text.SplitOn(s, ':');
    if |parts| == 3 && parts in store then store[parts] else s
  }

  function Hydrate(v: Value, store: SecretStore): Value
    decreases v
  {
    match v
    case String(s) => String(Resolve(s, store))
    case Object(m) => Object(map k | k in m :: Hydrate(m[k], store))
    case Array(items) => Array(seq(|items|, i requires 0 <= i < |items| => Hydrate(items[i], store)))
    case _ => v
  }

  /** No string anywhere in the value stands for a stored secret with another plaintext. */
  ghost predicate Settled(v: Value, store: SecretStore)
    decreases v
  {
    match v
    case String(s) => Resolve(s, store) == s
    case Object(m) => forall k :: k in m ==> Settled(m[k], store)
    case Array(items) => forall i :: 0 <= i < |items| ==> Settled(items[i], store)
    case _ => true
  }

  /** Hydration leaves a value alone exactly when it is settled. */
  lemma {:induction false} HydrateFixes(v: Value, store: SecretStore)
    ensures Hydrate(v, store) == v <==> Settled(v, store)
    decreases v
  {
    match v
    case Object(m) =>
      var h := Hydrate(v, store).fields;
      forall k | k in m ensures h[k] == m[k] <==> Settled(m[k], store) { HydrateFixes(m[k], store); }
      if Settled(v, store) {
        assert h == m;
      }
    case Array(items) =>
      var h := Hydrate(v, store).items;
      forall i | 0 <= i < |items| ensures h[i] == items[i] <==> Settled(items[i], store) { HydrateFixes(items[i], store); }
      if Settled(v, store) {
        assert h == items;
      }
    case _ =>
  }

  /** Plaintexts that are not themselves references to stored secrets. */
  predicate PlainStore(store: SecretStore) {
    forall key :: key in store ==> Resolve(store[key], store) == store[key]
  }

  /** With such a store, one hydration settles everything. */
  lemma {:induction false} HydratedIsSettled(v: Value, store: SecretStore)
    requires PlainStore(store)
    ensures Settled(Hydrate(v, store), store)
    decreases v
  {
    match v
    case Object(m) =>
      forall k | k in m ensures Settled(Hydrate(m[k], store), store) { HydratedIsSettled(m[k], store); }
    case Array(items) =>
      forall i | 0 <= i < |items| ensures Settled(Hydrate(items[i], store), store) { HydratedIsSettled(items[i], store); }
    case _ =>
  }

  /** A text of three parts between two colons that names a stored secret is replaced by it, and no text of another form is. */
  lemma OnlyReferencesAreFilledIn(group: string, service: string, name: string, other: string, store: SecretStore)
    requires ':' !in group && ':' !in service && ':' !in name
    ensures
      Hydrate(String(group + [':'] + service + [':'] + name), store)
      == if [group, service, name] in store then String(store[[group, service, name]])
         else String(group + [':'] + service + [':'] + name)
    ensures multiset(other)[':'] != 2 ==> Hydrate(String(other), store) == String(other)
  {
    Text.SplitOnConcat(group + [':'] + service, name, ':');
    Text.SplitOnConcat(group, service, ':');
    Text.SplitOnPlain(group, ':');
    Text.SplitOnPlain(service, ':');
    Text.SplitOnPlain(name, ':');
    assert [group] + [service] + [name] == [group, service, name];
    Text.SplitOnCount(other, ':');
  }
}
