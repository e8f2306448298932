/** The two functions that turn a watch event into reconcile requests, against what a reconcile reads. */
module WatchIndex {
  import opened Kube
  import opened Api
  import opened Auth

  datatype SchemaItem = SchemaItem(key: Key, ref: RegistryRef)

  datatype RegistryItem = RegistryItem(key: Key, spec: RegistrySpec)

  /** What one event of registry `rk` selects. */
  predicate Selects(rk: Key, item: SchemaItem) {
    item.key.namespace == rk.namespace && item.ref.name == rk.name
  }

  /** `findSchemasForRegistry`: the cached list is already restricted to the registry's namespace. */
  method FindSchemasForRegistry(items: seq<SchemaItem>, rk: Key) returns (requests: seq<Key>)
    ensures forall k :: k in requests <==> exists i :: 0 <= i < |items| && items[i].key == k && Selects(rk, items[i])
    ensures forall k :: k in requests ==> k.namespace == rk.namespace
    ensures forall item :: item in items && item.key.namespace == rk.namespace && item.ref.name == rk.name ==>
              item.key in requests
    ensures |requests| == |Matching(items, rk)| && forall j :: 0 <= j < |requests| ==>
              requests[j] == Matching(items, rk)[j].key
  {
    requests := [];
    ghost var picked: seq<SchemaItem> := [];
    for i := 0 to |items|
      invariant picked + Matching(items[i..], rk) == Matching(items, rk)
      invariant |requests| == |picked| && forall j :: 0 <= j < |picked| ==> requests[j] == picked[j].key
    {
      var item := items[i];
      assert items[i..][1..] == items[i + 1..];
      if item.key.namespace == rk.namespace {
        if item.ref.name == rk.name {
          requests := requests + [item.key];
          picked := picked + [item];
        }
      }
    }
    MatchingMembers(items, rk);
    forall k ensures k in requests <==> exists i :: 0 <= i < |items| && items[i].key == k && Selects(rk, items[i]) {
      if k in requests {
        var j :| 0 <= j < |requests| && requests[j] == k;
        assert picked[j] in Matching(items, rk);
      }
      if i :| 0 <= i < |items| && items[i].key == k && Selects(rk, items[i]) {
        assert items[i] in items;
        var j :| 0 <= j < |picked| && picked[j] == items[i];
        assert requests[j] == k;
      }
    }
  }

  /** The items an event selects, in list order. */
  function Matching(items: seq<SchemaItem>, rk: Key): seq<SchemaItem> {
    if items == [] then []
    else (if Selects(rk, items[0]) then [items[0]] else []) + Matching(items[1..], rk)
  }

  lemma {:induction false} MatchingMembers(items: seq<SchemaItem>, rk: Key)
    ensures forall x :: x in Matching(items, rk) <==> x in items && Selects(rk, x)
  {
    if items != [] {
      MatchingMembers(items[1..], rk);
    }
  }

  /** Exactness: an event of `rk` wakes an item exactly when the item resolves to `rk`, except
      for references across namespaces. Such a reference is never woken by the registry it
      resolves to, and is woken instead by a namesake in its own namespace. */
  lemma Exactness(item: SchemaItem, rk: Key)
    ensures OwnNamespace(item.key, item.ref) ==> (Selects(rk, item) <==> Resolve(item.key, item.ref) == rk)
    ensures !OwnNamespace(item.key, item.ref) ==> !(Selects(rk, item) && Resolve(item.key, item.ref) == rk)
    ensures Selects(rk, item) && Resolve(item.key, item.ref) != rk <==>
            !OwnNamespace(item.key, item.ref) && rk == Key(item.key.namespace, item.ref.name)
    ensures !Selects(rk, item) && Resolve(item.key, item.ref) == rk <==>
            !OwnNamespace(item.key, item.ref) && rk == Key(item.ref.namespace, item.ref.name)
  {
  }

  /** Over whole lists: the selected items are exactly those that resolve to `rk` if and only if no
      item reaches `rk`, or its namesake in the item's namespace, across namespaces. */
  lemma ListExactness(items: seq<SchemaItem>, rk: Key)
    ensures (forall x :: x in items ==> (x in Matching(items, rk) <==> Resolve(x.key, x.ref) == rk)) <==>
            (forall x :: x in items && !OwnNamespace(x.key, x.ref) ==>
               rk != Key(x.key.namespace, x.ref.name) && rk != Key(x.ref.namespace, x.ref.name))
  {
    MatchingMembers(items, rk);
    forall x | x in items
      ensures (x in Matching(items, rk) <==> Resolve(x.key, x.ref) == rk) <==>
              (!OwnNamespace(x.key, x.ref) ==>
                  rk != Key(x.key.namespace, x.ref.name) && rk != Key(x.ref.namespace, x.ref.name))
    {
      Exactness(x, rk);
    }
  }

  /** What one event of Secret `sk` selects. */
  predicate SelectsRegistry(sk: Key, item: RegistryItem) {
    item.key.namespace == sk.namespace && ReferencesSecret(item.spec, sk.name)
  }

  function MatchingRegistries(items: seq<RegistryItem>, sk: Key): seq<RegistryItem> {
    if items == [] then []
    else (if SelectsRegistry(sk, items[0]) then [items[0]] else []) + MatchingRegistries(items[1..], sk)
  }

  lemma {:induction false} MatchingRegistryMembers(items: seq<RegistryItem>, sk: Key)
    ensures forall x :: x in MatchingRegistries(items, sk) <==> x in items && SelectsRegistry(sk, x)
  {
    if items != [] {
      MatchingRegistryMembers(items[1..], sk);
    }
  }

  /** `findSchemaRegistriesForSecret`: one request for each registry that references the Secret, in
      list order. */
  method FindSchemaRegistriesForSecret(items: seq<RegistryItem>, sk: Key) returns (requests: seq<Key>)
    ensures |requests| == |MatchingRegistries(items, sk)|
    ensures forall j :: 0 <= j < |requests| ==> requests[j] == MatchingRegistries(items, sk)[j].key
    ensures forall k :: k in requests <==>
              exists i :: 0 <= i < |items| && items[i].key == k && SelectsRegistry(sk, items[i])
    ensures forall k :: k in requests ==> k.namespace == sk.namespace
    ensures forall item :: item in items ==>
              (item.key.namespace == sk.namespace && ReferencesSecret(item.spec, sk.name) ==> item.key in requests)
  {
    requests := [];
    ghost var picked: seq<RegistryItem> := [];
    for i := 0 to |items|
      invariant picked + MatchingRegistries(items[i..], sk) == MatchingRegistries(items, sk)
      invariant |requests| == |picked| && forall j :: 0 <= j < |picked| ==> requests[j] == picked[j].key
    {
      assert items[i..][1..] == items[i + 1..];
      if items[i].key.namespace == sk.namespace {
        if ReferencesSecret(items[i].spec, sk.name) {
          requests := requests + [items[i].key];
          picked := picked + [items[i]];
        }
      }
    }
    MatchingRegistryMembers(items, sk);
    forall k ensures k in requests <==>
        exists i :: 0 <= i < |items| && items[i].key == k && SelectsRegistry(sk, items[i]) {
      if k in requests {
        var j :| 0 <= j < |requests| && requests[j] == k;
        assert picked[j] in MatchingRegistries(items, sk);
      }
      if i :| 0 <= i < |items| && items[i].key == k && SelectsRegistry(sk, items[i]) {
        assert items[i] in items;
        var j :| 0 <= j < |picked| && picked[j] == items[i];
        assert requests[j] == k;
      }
    }
  }

  /** Two-hop coverage: when a change of one Secret changes the client that a Schema with a registry
      in its own namespace would build, the Secret's event selects that registry and the
      registry's event selects the Schema. */
  lemma SecretChangeIsCovered(parse: KeyPairParser, item: SchemaItem, registries: RegistryStore,
                              before: SecretStore, after: SecretStore, sk: Key)
    requires OwnNamespace(item.key, item.ref)
    requires forall k :: k != sk ==> SameSecret(before, after, k)
    requires BuildClient(parse, item.key, item.ref, registries, before) != BuildClient(parse, item.key, item.ref,
             registries, after)
    ensures var rk := Resolve(item.key, item.ref);
            rk in registries && SelectsRegistry(sk, RegistryItem(rk, registries[rk])) && Selects(rk, item)
  {
    var rk := Resolve(item.key, item.ref);
    assert rk in registries;
    if !SelectsRegistry(sk, RegistryItem(rk, registries[rk])) {
      assert AgreeOnReferenced(rk.namespace, registries[rk], before, after);
      NonInterference(parse, rk.namespace, registries[rk], before, after);
    }
  }

  /** One hop: a change of one SchemaRegistry (created, edited or deleted) that changes the client
      is an event of exactly the registry whose event selects the Schema. */
  lemma RegistryChangeIsCovered(parse: KeyPairParser, item: SchemaItem, before: RegistryStore, after: RegistryStore,
                                secrets: SecretStore, rk: Key)
    requires OwnNamespace(item.key, item.ref)
    requires forall k :: k != rk ==> (k in before <==> k in after) && (k in before ==> before[k] == after[k])
    requires BuildClient(parse, item.key, item.ref, before, secrets) != BuildClient(parse, item.key, item.ref, after,
             secrets)
    ensures Selects(rk, item)
  {
    assert Resolve(item.key, item.ref) == rk;
  }

  /** Across namespaces coverage fails: such a Schema's client can change without any event that
      selects it. */
  lemma CrossNamespaceChangeIsMissed(parse: KeyPairParser, item: SchemaItem, secrets: SecretStore, a: RegistrySpec,
      b: RegistrySpec)
    requires !OwnNamespace(item.key, item.ref) && a.url != b.url && a.auth.None? && b.auth.None?
    ensures var rk := Resolve(item.key, item.ref);
            && BuildClient(parse, item.key, item.ref, map[rk := a], secrets) != BuildClient(parse, item.key, item.ref,
               map[rk := b], secrets)
            && !Selects(rk, item)
  {
    var rk := Resolve(item.key, item.ref);
    assert BuildClient(parse, item.key, item.ref, map[rk := a], secrets).value.url == a.url;
  }
}
