/** The generated deep copies, over a heap. A struct is a datatype whose pointer fields are cells and
    whose slice fields are arrays, so that assigning it is Go's shallow `*out = *in`; a pointer
    to a struct is a cell holding it. For every struct there is what it means (its view, which tells nil
    from empty) and which objects it is made of (its parts). */
module DeepCopy {
  import opened Kube
  import Api

  class Cell<T> {
    var value: T

    constructor (value: T)
      ensures this.value == value
    {
      this.value := value;
    }
  }

  function Part(o: object?): set<object> {
    if o == null then {} else {o}
  }

  function Target<T>(c: Cell?<T>): Option<T>
    reads c
  {
    if c == null then None else Some(c.value)
  }

  function Elements<T>(a: array?<T>): Option<seq<T>>
    reads a
  {
    if a == null then None else Some(a[..])
  }

  method CopyCell<T>(c: Cell?<T>) returns (copy: Cell?<T>)
    ensures Target(copy) == Target(c) && fresh(Part(copy))
  {
    copy := null;
    if c != null {
      copy := new Cell<T>(c.value);
    }
  }

  /** `make`, then element by element. */
  method CopyArray<T(0)>(a: array?<T>) returns (copy: array?<T>)
    ensures Elements(copy) == Elements(a) && fresh(Part(copy))
  {
    copy := null;
    if a != null {
      var b := new T[a.Length];
      for i := 0 to a.Length
        invariant b[..i] == a[..i]
      {
        b[i] := a[i];
      }
      assert b[..] == b[..a.Length] && a[..] == a[..a.Length];
      copy := b;
    }
  }

  // ----- Schema -----

  datatype Meta = Meta(name: string, namespace: string, resourceVersion: nat, generation: nat,
                       deletionTimestamp: Cell?<nat>, finalizers: array?<string>)

  datatype SchemaSpec = SchemaSpec(subject: string, schemaType: Api.SchemaType, schema: string,
                                   references: array?<Api.SchemaReference>, registryRef: Api.RegistryRef,
                                   compatibilityLevel: string)

  datatype SchemaStatus = SchemaStatus(schemaId: Cell?<int>, version: Cell?<int>, registeredAt: Cell?<nat>,
                                       observedGeneration: int, conditions: array?<Condition>)

  datatype Schema = Schema(kind: string, meta: Meta, spec: SchemaSpec, status: SchemaStatus)

  datatype SchemaList = SchemaList(kind: string, resourceVersion: string, items: array?<Schema>)

  datatype MetaView = MetaView(name: string, namespace: string, resourceVersion: nat, generation: nat,
                               deletionTimestamp: Option<nat>, finalizers: Option<seq<string>>)

  datatype SpecView = SpecView(subject: string, schemaType: Api.SchemaType, schema: string,
                               references: Option<seq<Api.SchemaReference>>, registryRef: Api.RegistryRef,
                               compatibilityLevel: string)

  datatype StatusView = StatusView(schemaId: Option<int>, version: Option<int>, registeredAt: Option<nat>,
                                   observedGeneration: int, conditions: Option<seq<Condition>>)

  datatype SchemaView = SchemaView(kind: string, meta: MetaView, spec: SpecView, status: StatusView)

  datatype ListView = ListView(kind: string, resourceVersion: string, items: Option<seq<SchemaView>>)

  function MetaParts(m: Meta): set<object> {
    Part(m.deletionTimestamp) + Part(m.finalizers)
  }

  function StatusParts(s: SchemaStatus): set<object> {
    Part(s.schemaId) + Part(s.version) + Part(s.registeredAt) + Part(s.conditions)
  }

  function SchemaParts(s: Schema): set<object> {
    MetaParts(s.meta) + Part(s.spec.references) + StatusParts(s.status)
  }

  ghost function ItemParts(items: seq<Schema>): set<object> {
    set i, o | 0 <= i < |items| && o in SchemaParts(items[i]) :: o
  }

  ghost function ListParts(l: SchemaList): set<object>
    reads l.items
  {
    if l.items == null then {} else {l.items} + ItemParts(l.items[..])
  }

  function ViewMeta(m: Meta): MetaView
    reads MetaParts(m)
  {
    MetaView(m.name, m.namespace, m.resourceVersion, m.generation, Target(m.deletionTimestamp), Elements(m.finalizers))
  }

  function ViewSpec(s: SchemaSpec): SpecView
    reads s.references
  {
    SpecView(s.subject, s.schemaType, s.schema, Elements(s.references), s.registryRef, s.compatibilityLevel)
  }

  function ViewStatus(s: SchemaStatus): StatusView
    reads StatusParts(s)
  {
    StatusView(Target(s.schemaId), Target(s.version), Target(s.registeredAt), s.observedGeneration,
      Elements(s.conditions))
  }

  function ViewSchema(s: Schema): SchemaView
    reads SchemaParts(s)
  {
    SchemaView(s.kind, ViewMeta(s.meta), ViewSpec(s.spec), ViewStatus(s.status))
  }

  ghost function ViewItems(items: seq<Schema>): seq<SchemaView>
    reads ItemParts(items)
  {
    seq(|items|, i requires 0 <= i < |items| reads ItemParts(items) => ViewSchema(items[i]))
  }

  ghost function ViewList(l: SchemaList): ListView
    reads ListParts(l)
  {
    ListView(l.kind, l.resourceVersion, if l.items == null then None else Some(ViewItems(l.items[..])))
  }

  // ----- what equal views mean -----

  /** Both nil, or pointing to the same value. */
  ghost predicate SameTarget<T>(a: Cell?<T>, b: Cell?<T>)
    reads a, b
  {
    (a == null <==> b == null) && (a != null && b != null ==> a.value == b.value)
  }

  /** Both nil, or with the same elements in order. */
  ghost predicate SameElements<T>(a: array?<T>, b: array?<T>)
    reads a, b
  {
    && (a == null <==> b == null)
    && (a != null && b != null ==> a.Length == b.Length && forall i :: 0 <= i < a.Length ==> a[i] == b[i])
  }

  lemma MetaViewTells(a: Meta, b: Meta)
    ensures ViewMeta(a) == ViewMeta(b) <==>
              && a.name == b.name && a.namespace == b.namespace
              && a.resourceVersion == b.resourceVersion && a.generation == b.generation
              && SameTarget(a.deletionTimestamp, b.deletionTimestamp) && SameElements(a.finalizers, b.finalizers)
  {
    ElementsTell(a.finalizers, b.finalizers);
    hide Elements, SameElements;
  }

  lemma SpecViewTells(a: SchemaSpec, b: SchemaSpec)
    ensures ViewSpec(a) == ViewSpec(b) <==>
              && a.subject == b.subject && a.schemaType == b.schemaType && a.schema == b.schema
              && a.registryRef == b.registryRef && a.compatibilityLevel == b.compatibilityLevel
              && SameElements(a.references, b.references)
  {
    ElementsTell(a.references, b.references);
    hide Elements, SameElements;
  }

  lemma StatusViewTells(a: SchemaStatus, b: SchemaStatus)
    ensures ViewStatus(a) == ViewStatus(b) <==>
              && SameTarget(a.schemaId, b.schemaId) && SameTarget(a.version, b.version)
              && SameTarget(a.registeredAt, b.registeredAt) && a.observedGeneration == b.observedGeneration
              && SameElements(a.conditions, b.conditions)
  {
    ElementsTell(a.conditions, b.conditions);
    hide Elements, SameElements;
  }

  lemma ElementsTell<T>(a: array?<T>, b: array?<T>)
    ensures Elements(a) == Elements(b) <==> SameElements(a, b)
  {
    if a != null && b != null {
      if a[..] == b[..] {
        forall i | 0 <= i < a.Length ensures a[i] == b[i] {
          assert a[..][i] == b[..][i];
        }
      }
      if SameElements(a, b) { assert a[..] == b[..]; }
    }
  }

  /** Two Schemas mean the same if and only if they agree field by field, pointer by pointer and element by
      element, nil only with nil. */
  lemma SchemaViewTells(a: Schema, b: Schema)
    ensures ViewSchema(a) == ViewSchema(b) <==>
              && a.kind == b.kind
              && ViewMeta(a.meta) == ViewMeta(b.meta)
              && ViewSpec(a.spec) == ViewSpec(b.spec)
              && ViewStatus(a.status) == ViewStatus(b.status)
  {
    hide ViewMeta, ViewSpec, ViewStatus;
  }

  lemma ListViewTells(a: SchemaList, b: SchemaList)
    ensures ViewList(a) == ViewList(b) <==>
              && a.kind == b.kind && a.resourceVersion == b.resourceVersion
              && (a.items == null <==> b.items == null)
              && (a.items != null && b.items != null ==>
                    && a.items.Length == b.items.Length
                    && forall i :: 0 <= i < a.items.Length ==> ViewSchema(a.items[i]) == ViewSchema(b.items[i]))
  {
    if a.items != null && b.items != null {
      var x, y := ViewItems(a.items[..]), ViewItems(b.items[..]);
      assert x == y <==> |x| == |y| && forall i :: 0 <= i < |x| ==> x[i] == y[i];
      assert forall i :: 0 <= i < |x| ==> x[i] == ViewSchema(a.items[i]);
      assert forall i :: 0 <= i < |y| ==> y[i] == ViewSchema(b.items[i]);
    }
    hide ViewSchema;
  }

  method CopyMeta(m: Meta) returns (out: Meta)
    ensures ViewMeta(out) == ViewMeta(m) && fresh(MetaParts(out))
  {
    out := m;
    var deletionTimestamp := CopyCell(m.deletionTimestamp);
    out := out.(deletionTimestamp := deletionTimestamp);
    var finalizers := CopyArray(m.finalizers);
    out := out.(finalizers := finalizers);
  }

  method CopySpec(s: SchemaSpec) returns (out: SchemaSpec)
    ensures ViewSpec(out) == ViewSpec(s) && fresh(Part(out.references))
  {
    out := s;
    var references := CopyArray(s.references);
    out := out.(references := references);
  }

  /** No two pointers of the copy are the same, even where the original's are. */
  method CopyStatus(s: SchemaStatus) returns (out: SchemaStatus)
    ensures ViewStatus(out) == ViewStatus(s) && fresh(StatusParts(out))
    ensures out.schemaId != null ==> out.schemaId != out.version
  {
    out := s;
    var schemaId := CopyCell(s.schemaId);
    out := out.(schemaId := schemaId);
    var version := CopyCell(s.version);
    out := out.(version := version);
    var registeredAt := CopyCell(s.registeredAt);
    out := out.(registeredAt := registeredAt);
    var conditions := CopyArray(s.conditions);
    out := out.(conditions := conditions);
  }

  method CopySchema(s: Schema) returns (out: Schema)
    ensures ViewSchema(out) == ViewSchema(s) && fresh(SchemaParts(out))
  {
    out := s;
    var meta := CopyMeta(s.meta);
    out := out.(meta := meta);
    var spec := CopySpec(s.spec);
    out := out.(spec := spec);
    var status := CopyStatus(s.status);
    out := out.(status := status);
  }

  /** `(*Schema).DeepCopyInto`; the two pointers may even be equal. */
  method SchemaDeepCopyInto(from: Cell<Schema>, into: Cell<Schema>)
    modifies into
    ensures fresh(SchemaParts(into.value))
    ensures ViewSchema(into.value) == old(ViewSchema(from.value))
  {
    var out := CopySchema(from.value);
    into.value := out;
  }

  /** `(*Schema).DeepCopy`: nothing that existed before is changed, and the copy shares nothing with it. */
  method SchemaDeepCopy(from: Cell?<Schema>) returns (copy: Cell?<Schema>)
    ensures copy == null <==> from == null
    ensures copy != null ==> fresh(copy) && fresh(SchemaParts(copy.value)) && copy !in SchemaParts(copy.value)
    ensures copy != null ==> ViewSchema(copy.value) == ViewSchema(from.value)
  {
    if from == null {
      return null;
    }
    copy := new Cell<Schema>(from.value);
    SchemaDeepCopyInto(from, copy);
  }

  ghost predicate Unshared(items: seq<Schema>) {
    forall i, j :: 0 <= i < j < |items| ==> SchemaParts(items[i]) !! SchemaParts(items[j])
  }

  /** The items' array, filled in order. Items of the copy share nothing with each other, whatever
      the items of the original share. */
  method CopyItems(items: array<Schema>) returns (copy: array<Schema>)
    ensures fresh(copy) && fresh(ItemParts(copy[..])) && Unshared(copy[..])
    ensures copy !in ItemParts(copy[..])
    ensures ViewItems(copy[..]) == ViewItems(items[..])
  {
    hide SchemaParts, ViewSchema;
    ghost var was := items[..];
    forall j | 0 <= j < |was| ensures forall o :: o in SchemaParts(was[j]) ==> old(allocated(o)) {
      PartsAreAllocated(was[j]);
    }
    var filler := Schema("", Meta("", "", 0, 0, null, null),
                         SchemaSpec("", Api.AVRO, "", null, Api.RegistryRef("", ""), ""),
                           SchemaStatus(null, null, null, 0, null));
    copy := new Schema[items.Length](_ => filler);
    for i := 0 to items.Length
      invariant items[..] == was
      invariant forall j, o :: 0 <= j < i && o in SchemaParts(copy[j]) ==> fresh(o) && allocated(o) && copy != o
      invariant forall j :: 0 <= j < i ==> ViewSchema(copy[j]) == old(ViewSchema(was[j]))
      invariant forall j, k :: 0 <= j < k < i ==> SchemaParts(copy[j]) !! SchemaParts(copy[k])
    {
      assert ViewSchema(was[i]) == old(ViewSchema(was[i]));
      var item := CopySchema(items[i]);
      PartsAreAllocated(item);
      copy[i] := item;
    }
  }

  lemma PartsAreAllocated(s: Schema)
    ensures forall o :: o in SchemaParts(s) ==> allocated(o)
  {
  }

  lemma ListPartsAreAllocated(l: SchemaList)
    ensures forall o :: o in ListParts(l) ==> allocated(o)
  {
    if l.items != null {
      forall i | 0 <= i < l.items.Length ensures forall o :: o in SchemaParts(l.items[i]) ==> allocated(o) {
        PartsAreAllocated(l.items[i]);
      }
    }
    hide SchemaParts;
  }

  method CopyList(l: SchemaList) returns (out: SchemaList)
    ensures fresh(ListParts(out)) && ViewList(out) == ViewList(l)
    ensures out.items != null ==> Unshared(out.items[..])
  {
    out := l;
    if l.items != null {
      var items := CopyItems(l.items);
      out := out.(items := items);
    }
  }

  /** `(*SchemaList).DeepCopy`. */
  method ListDeepCopy(from: Cell?<SchemaList>) returns (copy: Cell?<SchemaList>)
    ensures copy == null <==> from == null
    ensures copy != null ==> fresh(copy) && fresh(ListParts(copy.value)) && ViewList(copy.value) == ViewList(from.value)
    ensures copy != null && copy.value.items != null ==> Unshared(copy.value.items[..])
  {
    if from == null {
      return null;
    }
    ListPartsAreAllocated(from.value);
    hide ListParts, ViewList;
    copy := new Cell<SchemaList>(from.value);
    var out := CopyList(from.value);
    copy.value := out;
  }

  // ----- SchemaRegistry -----

  datatype AuthConfig = AuthConfig(kind: Api.AuthType, basicAuth: Cell?<string>, bearerAuth: Cell?<string>,
      mtls: Cell?<Api.MtlsRefs>)

  datatype RegistrySpec = RegistrySpec(url: string, auth: Cell?<AuthConfig>, insecureSkipVerify: bool, timeout: int)

  datatype RegistryStatus = RegistryStatus(connectionStatus: string, lastChecked: Cell?<nat>, observedGeneration: int,
                                           conditions: array?<Condition>)

  datatype SchemaRegistry = SchemaRegistry(kind: string, meta: Meta, spec: RegistrySpec, status: RegistryStatus)

  datatype RegistryStatusView = RegistryStatusView(connectionStatus: string, lastChecked: Option<nat>,
      observedGeneration: int,
                                                   conditions: Option<seq<Condition>>)

  datatype RegistryView = RegistryView(kind: string, meta: MetaView, spec: Api.RegistrySpec, status: RegistryStatusView)

  function AuthParts(a: AuthConfig): set<object> {
    Part(a.basicAuth) + Part(a.bearerAuth) + Part(a.mtls)
  }

  /** The block and what it points to in turn. */
  function RegistrySpecParts(s: RegistrySpec): set<object>
    reads s.auth
  {
    if s.auth == null then {} else {s.auth} + AuthParts(s.auth.value)
  }

  function RegistryStatusParts(s: RegistryStatus): set<object> {
    Part(s.lastChecked) + Part(s.conditions)
  }

  function RegistryParts(r: SchemaRegistry): set<object>
    reads r.spec.auth
  {
    MetaParts(r.meta) + RegistrySpecParts(r.spec) + RegistryStatusParts(r.status)
  }

  function ViewAuth(a: AuthConfig): Api.AuthSpec
    reads AuthParts(a)
  {
    Api.AuthSpec(a.kind, Target(a.basicAuth), Target(a.bearerAuth), Target(a.mtls))
  }

  /** The specification that the rest of the model works on. */
  function ViewRegistrySpec(s: RegistrySpec): Api.RegistrySpec
    reads s.auth, RegistrySpecParts(s)
  {
    Api.RegistrySpec(s.url, if s.auth == null then None
      else Some(ViewAuth(s.auth.value)), s.insecureSkipVerify, s.timeout)
  }

  function ViewRegistryStatus(s: RegistryStatus): RegistryStatusView
    reads RegistryStatusParts(s)
  {
    RegistryStatusView(s.connectionStatus, Target(s.lastChecked), s.observedGeneration, Elements(s.conditions))
  }

  function ViewRegistry(r: SchemaRegistry): RegistryView
    reads r.spec.auth, RegistryParts(r)
  {
    RegistryView(r.kind, ViewMeta(r.meta), ViewRegistrySpec(r.spec), ViewRegistryStatus(r.status))
  }

  /** Two SchemaRegistries mean the same if and only if they agree field by field, down to the blocks that the
      credentials point to. */
  lemma AuthViewTells(a: AuthConfig, b: AuthConfig)
    ensures ViewAuth(a) == ViewAuth(b) <==>
              && a.kind == b.kind && SameTarget(a.basicAuth, b.basicAuth)
              && SameTarget(a.bearerAuth, b.bearerAuth) && SameTarget(a.mtls, b.mtls)
  {
  }

  lemma RegistryViewTells(a: SchemaRegistry, b: SchemaRegistry)
    ensures ViewRegistry(a) == ViewRegistry(b) <==>
              && a.kind == b.kind && ViewMeta(a.meta) == ViewMeta(b.meta)
              && a.spec.url == b.spec.url && a.spec.timeout == b.spec.timeout
              && a.spec.insecureSkipVerify == b.spec.insecureSkipVerify
              && (a.spec.auth == null <==> b.spec.auth == null)
              && (a.spec.auth != null && b.spec.auth != null ==>
                   ViewAuth(a.spec.auth.value) == ViewAuth(b.spec.auth.value))
              && a.status.connectionStatus == b.status.connectionStatus
              && a.status.observedGeneration == b.status.observedGeneration
              && SameTarget(a.status.lastChecked, b.status.lastChecked)
              && SameElements(a.status.conditions, b.status.conditions)
  {
    ElementsTell(a.status.conditions, b.status.conditions);
    hide Elements, SameElements, ViewMeta, ViewAuth;
  }

  method CopyAuth(a: AuthConfig) returns (out: AuthConfig)
    ensures ViewAuth(out) == ViewAuth(a) && fresh(AuthParts(out))
  {
    out := a;
    var basicAuth := CopyCell(a.basicAuth);
    out := out.(basicAuth := basicAuth);
    var bearerAuth := CopyCell(a.bearerAuth);
    out := out.(bearerAuth := bearerAuth);
    var mtls := CopyCell(a.mtls);
    out := out.(mtls := mtls);
  }

  method CopyRegistrySpec(s: RegistrySpec) returns (out: RegistrySpec)
    ensures ViewRegistrySpec(out) == ViewRegistrySpec(s) && fresh(RegistrySpecParts(out))
  {
    out := s;
    if s.auth != null {
      var auth := CopyAuth(s.auth.value);
      var cell := new Cell<AuthConfig>(auth);
      out := out.(auth := cell);
    }
  }

  method CopyRegistryStatus(s: RegistryStatus) returns (out: RegistryStatus)
    ensures ViewRegistryStatus(out) == ViewRegistryStatus(s) && fresh(RegistryStatusParts(out))
  {
    out := s;
    var lastChecked := CopyCell(s.lastChecked);
    out := out.(lastChecked := lastChecked);
    var conditions := CopyArray(s.conditions);
    out := out.(conditions := conditions);
  }

  method CopyRegistry(r: SchemaRegistry) returns (out: SchemaRegistry)
    ensures ViewRegistry(out) == ViewRegistry(r) && fresh(RegistryParts(out))
  {
    out := r;
    var meta := CopyMeta(r.meta);
    out := out.(meta := meta);
    var spec := CopyRegistrySpec(r.spec);
    out := out.(spec := spec);
    var status := CopyRegistryStatus(r.status);
    out := out.(status := status);
  }

  lemma RegistryPartsAreAllocated(r: SchemaRegistry)
    ensures forall o :: o in RegistryParts(r) ==> allocated(o)
  {
  }

  /** `(*SchemaRegistry).DeepCopy`, down to the blocks the credentials point to. */
  method RegistryDeepCopy(from: Cell?<SchemaRegistry>) returns (copy: Cell?<SchemaRegistry>)
    ensures copy == null <==> from == null
    ensures copy != null ==>
              fresh(copy) && fresh(RegistryParts(copy.value)) && ViewRegistry(copy.value) == ViewRegistry(from.value)
  {
    if from == null {
      return null;
    }
    RegistryPartsAreAllocated(from.value);
    hide RegistryParts, ViewRegistry;
    copy := new Cell<SchemaRegistry>(from.value);
    var out := CopyRegistry(from.value);
    copy.value := out;
  }

  // ----- why the copies matter -----

  function ListOf(cs: Option<seq<Condition>>): seq<Condition> {
    if cs.None? then [] else cs.value
  }

  /** Where `SetStatusCondition` takes effect: at the first condition of the kind, or past the end. */
  lemma {:induction false} SetStatusConditionAt(cs: seq<Condition>, c: Condition, now: nat, at: nat)
    requires at <= |cs| && (forall j :: 0 <= j < at ==> cs[j].kind != c.kind) && (at < |cs| ==> cs[at].kind == c.kind)
    ensures SetStatusCondition(cs, c, now) ==
            if at == |cs| then cs + [c.(lastTransition := now)]
            else cs[at := c.(lastTransition := if cs[at].status == c.status then cs[at].lastTransition else now)]
    ensures FindCondition(cs, c.kind).Some? <==> at < |cs|
    decreases |cs|
  {
    if at > 0 {
      assert cs == [cs[0]] + cs[1..];
      SetStatusConditionAt(cs[1..], c, now, at - 1);
    }
  }

  /** The API library's `SetStatusCondition`: it overwrites in place, in the very array it is given,
      or moves to a larger one. */
  method SetConditionInPlace(cs: array?<Condition>, c: Condition, now: nat) returns (result: array<Condition>)
    modifies cs
    ensures result[..] == SetStatusCondition(ListOf(old(Elements(cs))), c, now)
    ensures if FindCondition(ListOf(old(Elements(cs))), c.kind).Some? then result == cs
            else fresh(result) && Elements(cs) == old(Elements(cs))
  {
    if cs == null {
      result := new Condition[1](_ => c.(lastTransition := now));
      return;
    }
    var i := 0;
    while i < cs.Length && cs[i].kind != c.kind
      invariant 0 <= i <= cs.Length
      invariant forall j :: 0 <= j < i ==> cs[j].kind != c.kind
    {
      i := i + 1;
    }
    SetStatusConditionAt(cs[..], c, now, i);
    if i < cs.Length {
      cs[i] := c.(lastTransition := if cs[i].status == c.status then cs[i].lastTransition else now);
      result := cs;
    } else {
      result := new Condition[cs.Length + 1](j requires 0 <= j <= cs.Length reads cs =>
        if j < cs.Length then cs[j] else c.(lastTransition := now));
    }
  }

  /** The edit of a status through its pointers. */
  method EditStatus(s: SchemaStatus, id: int, version: int, now: nat, generation: nat,
      c: Condition) returns (out: SchemaStatus)
    modifies s.conditions
    ensures forall o :: o in StatusParts(out) ==> allocated(o) && (fresh(o) || o in Part(s.conditions))
    ensures ViewStatus(out) == StatusView(Some(id), Some(version), Some(now), generation,
                                          Some(SetStatusCondition(ListOf(old(Elements(s.conditions))), c, now)))
  {
    out := s;
    var conditions := SetConditionInPlace(s.conditions, c, now);
    var schemaId := new Cell<int>(id);
    out := out.(schemaId := schemaId);
    var latest := new Cell<int>(version);
    out := out.(version := latest);
    var registeredAt := new Cell<nat>(now);
    out := out.(registeredAt := registeredAt);
    out := out.(observedGeneration := generation);
    out := out.(conditions := conditions);
  }

  /** The views of an object and of its fields, and why an edit of the conditions' array leaves the rest
      of the object alone. */
  lemma ConditionsAreTheirOwn(o: Cell<Schema>, s: Schema)
    ensures o !in SchemaParts(s)
    ensures SchemaParts(s) == MetaParts(s.meta) + Part(s.spec.references) + StatusParts(s.status)
    ensures Part(s.status.conditions) <= StatusParts(s.status)
    ensures ViewStatus(s.status).conditions == Elements(s.status.conditions)
    ensures ViewMeta(s.meta).generation == s.meta.generation
    ensures Part(s.status.conditions) !! MetaParts(s.meta) + Part(s.spec.references)
  {
    hide ViewSpec;
  }

  /** The edited status is put back into its object. */
  method EditObject(o: Cell<Schema>, id: int, version: int, now: nat, c: Condition)
    modifies o, o.value.status.conditions
    ensures forall p :: p in SchemaParts(o.value) ==> fresh(p) || p in old(SchemaParts(o.value))
    ensures var before := old(ViewSchema(o.value));
            ViewSchema(o.value) ==
              before.(status := StatusView(Some(id), Some(version), Some(now), before.meta.generation,
                                           Some(SetStatusCondition(ListOf(before.status.conditions), c, now))))
  {
    ConditionsAreTheirOwn(o, o.value);
    PartsAreAllocated(o.value);
    hide SchemaParts, MetaParts, StatusParts, ViewMeta, ViewSpec, ViewStatus;
    var status := EditStatus(o.value.status, id, version, now, o.value.meta.generation, c);
    o.value := o.value.(status := status);
    ConditionsAreTheirOwn(o, o.value);
  }

  /** What a reconcile does with an object it was given from the cache: it works on a copy, and
      edits the copy's status through its pointers. No object that existed before is written to, so the cache
      still shows what it showed, while the copy shows the new status. */
  method SetRegistered(cached: Cell<Schema>, id: int, version: int, now: nat, c: Condition) returns (mine: Cell<Schema>)
    ensures fresh(mine) && fresh(SchemaParts(mine.value))
    ensures ViewSchema(cached.value) == old(ViewSchema(cached.value))
    ensures var before := old(ViewSchema(cached.value));
            ViewSchema(mine.value) ==
              before.(status := StatusView(Some(id), Some(version), Some(now), before.meta.generation,
                                           Some(SetStatusCondition(ListOf(before.status.conditions), c, now))))
  {
    PartsAreAllocated(cached.value);
    hide SchemaParts, ViewSchema;
    mine := SchemaDeepCopy(cached);
    assert fresh(Part(mine.value.status.conditions)) by { ConditionsAreTheirOwn(mine, mine.value); }
    EditObject(mine, id, version, now, c);
  }

  /** Without the copy the cache would change: on a shallow copy the same edit is seen through the
      original, whenever it has a condition of that kind. */
  method ShallowCopyLeaks(cached: Cell<Schema>, c: Condition, now: nat) returns (mine: Cell<Schema>)
    requires cached.value.status.conditions != null
    requires FindCondition(cached.value.status.conditions[..], c.kind).Some?
    modifies cached.value.status.conditions
    ensures fresh(mine)
    ensures ViewSchema(cached.value).status == old(ViewSchema(cached.value)).status.(
              conditions := Some(SetStatusCondition(old(cached.value.status.conditions[..]), c, now)))
  {
    mine := new Cell<Schema>(cached.value);
    var conditions := SetConditionInPlace(mine.value.status.conditions, c, now);
    mine.value := mine.value.(status := mine.value.status.(conditions := conditions));
  }
}
