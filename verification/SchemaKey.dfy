/** Everything that concerns one Schema key: its history in the API server, the informer cache, the
    workqueue entry and the reconcile that may be in flight, advanced one API call at a time. */
module SchemaKey {
  import opened Kube
  import opened Api
  import opened Admission

  const FINALIZER := "registry.strimzi.io/schema-finalizer"
  const READY := "Ready"

  datatype Status = Status(schemaId: Option<nat>, version: Option<nat>, registeredAt: Option<nat>,
                           observedGeneration: nat, conditions: seq<Condition>)

  const NO_STATUS := Status(None, None, None, 0, [])

  /** `inc` tells apart the objects that have borne the name one after the other (the uid), and `rv`
      is the resource version. */
  datatype Schema = Schema(inc: nat, rv: nat, generation: nat, deleting: bool,
                           finalizers: set<string>, spec: SchemaSpec, status: Status)

  /** Where a reconcile stands: which call it is about to make, and its local variables. */
  datatype Pc =
    | Idle
    | Start
    | CleanupGetRegistry(obj: Schema)
    | CleanupLoadAuth(obj: Schema, url: string)
    | CleanupDelete(obj: Schema, url: string)
    | CleanupFinalize(obj: Schema, cleaned: Option<string>)
    | AddFinalizer(obj: Schema)
    | Refetch(obj: Schema)
    | GetRegistry(obj: Schema)
    | LoadAuth(obj: Schema, url: string)
    | Post(obj: Schema, url: string)
    | Latest(obj: Schema, url: string, id: nat)
    | Compat(obj: Schema, url: string, id: nat, version: nat)
    | StatusFetch(obj: Schema, url: string, id: nat, version: nat)
    | StatusWrite(obj: Schema, url: string, id: nat, version: nat, posted: Request, now: nat)
    | FailFetch(obj: Schema, reason: string, message: Message)
    | FailWrite(obj: Schema, reason: string, message: Message, now: nat)

  /** `dirty` is the workqueue's mark (queued unless a reconcile is in flight), `timer` a delayed
      add that has not fired, `incs` how many objects have borne the name, and `intent` the
      specification of the last accepted user write. */
  datatype KeyState = KeyState(slot: Slot<Schema>, incs: nat, intent: SchemaSpec,
                               dirty: bool, timer: bool, pc: Pc)

  /** What the rest of the system answers to one call. */
  datatype Input = Input(outcome: Outcome, url: Option<string>, id: nat, version: nat, now: nat)

  // ----- the API server -----

  /** Stores the next version of the live object: unchanged content makes no new version, and an
      object that is being deleted disappears with its last finalizer. */
  function Store(s: Slot<Schema>, o: Schema): Slot<Schema>
    requires Live(s).Some?
  {
    if o == Live(s).value then s
    else if o.deleting && o.finalizers == {} then Append(s, None)
    else Append(s, Some(o.(rv := |s.hist|)))
  }

  predicate Current(s: Slot<Schema>, sent: Schema) {
    Live(s).Some? && Live(s).value.rv == sent.rv && Live(s).value.inc == sent.inc
  }

  /** An update through the main endpoint: rejected when the version is old or the webhook objects;
      the status sent along is ignored. */
  function ApiUpdate(json: string -> bool, s: Slot<Schema>, sent: Schema): Option<Slot<Schema>> {
    if !Current(s, sent) || !AdmitsUpdate(json, Live(s).value.spec, sent.spec) then None
    else
      var l := Live(s).value;
      Some(Store(s, l.(spec := sent.spec, finalizers := sent.finalizers,
                       generation := if sent.spec == l.spec then l.generation else l.generation + 1)))
  }

  /** An update through the status subresource: everything but the status is ignored. */
  function ApiUpdateStatus(s: Slot<Schema>, sent: Schema): Option<Slot<Schema>> {
    if !Current(s, sent) then None else Some(Store(s, Live(s).value.(status := sent.status)))
  }

  // ----- users -----

  predicate MayCreate(json: string -> bool, ks: KeyState, spec: SchemaSpec) {
    Live(ks.slot).None? && SpecValid(json, spec)
  }

  function Create(ks: KeyState, spec: SchemaSpec, finalizers: set<string>): KeyState {
    var o := Schema(ks.incs, |ks.slot.hist|, 1, false, finalizers, spec, NO_STATUS);
    ks.(slot := Append(ks.slot, Some(o)), incs := ks.incs + 1, intent := spec)
  }

  /** Users may edit the specification and other parties' finalizers. The operator's own finalizer is
      only ever removed by the operator, and nobody adds finalizers during deletion. */
  predicate MayUpdate(json: string -> bool, ks: KeyState, spec: SchemaSpec, finalizers: set<string>) {
    && Live(ks.slot).Some?
    && var l := Live(ks.slot).value;
    && AdmitsUpdate(json, l.spec, spec)
    && (FINALIZER in l.finalizers ==> FINALIZER in finalizers)
    && (l.deleting ==> finalizers <= l.finalizers)
  }

  function Update(ks: KeyState, spec: SchemaSpec, finalizers: set<string>): KeyState
    requires Live(ks.slot).Some?
  {
    var l := Live(ks.slot).value;
    ks.(intent := spec,
        slot := Store(ks.slot, l.(spec := spec, finalizers := finalizers,
                                  generation := if spec == l.spec then l.generation else l.generation + 1)))
  }

  /** Deletion marks an object that still has finalizers, and otherwise removes it. */
  function DeleteByUser(ks: KeyState): KeyState
    requires Live(ks.slot).Some?
  {
    var l := Live(ks.slot).value;
    if l.deleting then ks
    else ks.(slot := Store(ks.slot, l.(deleting := true, generation := l.generation + 1)))
  }

  // ----- workqueue and informer -----

  /** The cache moves on and the event handler marks the key. */
  function Deliver(ks: KeyState, to: nat): KeyState
    requires to < |ks.slot.hist|
  {
    ks.(slot := AdvanceTo(ks.slot, to), dirty := true)
  }

  function Mark(ks: KeyState): KeyState {
    ks.(dirty := true)
  }

  function Fire(ks: KeyState): KeyState {
    ks.(timer := false, dirty := true)
  }

  function Dequeue(ks: KeyState): KeyState {
    ks.(dirty := false, pc := Start)
  }

  /** A restarted manager has forgotten queue, timers and reconciles, and lists every object it sees. */
  function Restart(ks: KeyState): KeyState {
    ks.(dirty := Cached(ks.slot).Some?, timer := false, pc := Idle)
  }

  /** The end of a reconcile. `retry` covers both a returned error and `RequeueAfter`. */
  function Finish(ks: KeyState, retry: bool): KeyState {
    ks.(pc := Idle, timer := ks.timer || retry)
  }

  // ----- the reconcile -----

  function RegisteredStatus(o: Schema, id: nat, version: nat, now: nat): Status {
    o.status.(schemaId := Some(id), version := Some(version), registeredAt := Some(now),
              observedGeneration := o.generation,
              conditions := SetStatusCondition(o.status.conditions,
                Condition(READY, IsTrue, "Registered", RegisteredAs(id, version), o.generation, now), now))
  }

  function FailedStatus(o: Schema, reason: string, message: Message, now: nat): Status {
    o.status.(conditions := SetStatusCondition(o.status.conditions,
                Condition(READY, IsFalse, reason, message, o.generation, now), now))
  }

  /** The result of a write: what is stored, and whether the caller sees success. */
  function Written(ks: KeyState, stored: Option<Slot<Schema>>, outcome: Outcome): (KeyState, bool) {
    if stored.None? || outcome.Refused? then (ks, false) else (ks.(slot := stored.value), outcome.Done?)
  }

  /** One call of `Reconcile`, from where the reconcile stands to just before its next call. */
  function Advance(json: string -> bool, ks: KeyState, i: Input): KeyState {
    match ks.pc
    case Idle => ks
    case Start =>
      (match Cached(ks.slot)
       case None => Finish(ks, false)
       case Some(o) =>
         if o.deleting then
           if FINALIZER in o.finalizers then ks.(pc := CleanupGetRegistry(o)) else Finish(ks, false)
         else if FINALIZER !in o.finalizers then ks.(pc := AddFinalizer(o))
         else ks.(pc := GetRegistry(o)))
    case CleanupGetRegistry(o) =>
      if i.url.None? then ks.(pc := CleanupFinalize(o, None)) else ks.(pc := CleanupLoadAuth(o, i.url.value))
    case CleanupLoadAuth(o, url) =>
      if i.outcome.Done? then ks.(pc := CleanupDelete(o, url)) else ks.(pc := CleanupFinalize(o, None))
    case CleanupDelete(o, url) =>
      if i.outcome.Done? then ks.(pc := CleanupFinalize(o, Some(url))) else Finish(ks, true)
    case CleanupFinalize(o, _) =>
      var (ks', ok) := Written(ks, ApiUpdate(json, ks.slot, o.(finalizers := o.finalizers - {FINALIZER})), i.outcome);
      Finish(ks', !ok)
    case AddFinalizer(o) =>
      var (ks', ok) := Written(ks, ApiUpdate(json, ks.slot, o.(finalizers := o.finalizers + {FINALIZER})), i.outcome);
      if ok then ks'.(pc := Refetch(o)) else Finish(ks', true)
    case Refetch(_) =>
      if Cached(ks.slot).None? then Finish(ks, false) else ks.(pc := GetRegistry(Cached(ks.slot).value))
    case GetRegistry(o) =>
      if i.url.None? then ks.(pc := FailFetch(o, "ClientBuildFailed", Text("failed to get SchemaRegistry")))
      else ks.(pc := LoadAuth(o, i.url.value))
    case LoadAuth(o, url) =>
      if i.outcome.Done? then ks.(pc := Post(o, url))
      else ks.(pc := FailFetch(o, "ClientBuildFailed", Text("failed to load credentials")))
    case Post(o, url) =>
      if i.outcome.Done? then ks.(pc := Latest(o, url, i.id))
      else ks.(pc := FailFetch(o, "RegistrationFailed", Text("failed to register schema")))
    case Latest(o, url, id) =>
      if o.spec.compatibilityLevel != "" then ks.(pc := Compat(o, url, id, i.version))
      else ks.(pc := StatusFetch(o, url, id, i.version))
    case Compat(o, url, id, version) =>
      ks.(pc := StatusFetch(o, url, id, version))
    case StatusFetch(o, url, id, version) =>
      if Cached(ks.slot).None? then Finish(ks, false)
      else ks.(pc := StatusWrite(Cached(ks.slot).value, url, id, version, RequestOf(o.spec), i.now))
    case StatusWrite(o, url, id, version, posted, now) =>
      var (ks', ok) :=
        Written(ks, ApiUpdateStatus(ks.slot, o.(status := RegisteredStatus(o, id, version, now))), i.outcome);
      Finish(ks', !ok)
    case FailFetch(o, reason, message) =>
      if Cached(ks.slot).None? then Finish(ks, true)
        else ks.(pc := FailWrite(Cached(ks.slot).value, reason, message, i.now))
    case FailWrite(o, reason, message, now) =>
      var (ks', ok) :=
        Written(ks, ApiUpdateStatus(ks.slot, o.(status := FailedStatus(o, reason, message, now))), i.outcome);
      Finish(ks', true)
  }

  predicate HasObj(pc: Pc) {
    !pc.Idle? && !pc.Start?
  }

  /** In the deletion branch, after the finalizer was seen. */
  predicate Cleaning(pc: Pc) {
    pc.CleanupGetRegistry? || pc.CleanupLoadAuth? || pc.CleanupDelete? || pc.CleanupFinalize?
  }

  /** In the registration branch, after the finalizer was seen or stored. */
  predicate Registering(pc: Pc) {
    HasObj(pc) && !Cleaning(pc) && !pc.AddFinalizer?
  }

  // ----- what one key keeps, whatever the rest of the system answers -----

  function Ready(o: Schema): Option<Condition> {
    FindCondition(o.status.conditions, READY)
  }

  function ReadyGeneration(o: Schema): nat {
    if Ready(o).Some? then Ready(o).value.observedGeneration else 0
  }

  /** The chain of generations of one version. */
  ghost predicate ChainOk(o: Schema) {
    && CountKind(o.status.conditions, READY) <= 1
    && o.status.observedGeneration <= ReadyGeneration(o) <= o.generation
    && (Ready(o).Some? && Ready(o).value.status == IsTrue ==>
          && o.status.observedGeneration == ReadyGeneration(o)
          && o.status.schemaId.Some? && o.status.version.Some? && o.status.registeredAt.Some?)
  }

  /** How a later version of an object relates to an earlier one. */
  ghost predicate Follows(a: Schema, b: Schema) {
    && a.generation <= b.generation
    && (a.generation == b.generation ==> a.spec == b.spec && a.deleting == b.deleting)
    && (a.deleting ==> b.deleting)
    && a.spec.subject == b.spec.subject
    && a.spec.schemaType == b.spec.schemaType
    && a.status.observedGeneration <= b.status.observedGeneration
    && ReadyGeneration(a) <= ReadyGeneration(b)
    && (a.status.schemaId.Some? ==> b.status.schemaId.Some?)
    && (a.status.version.Some? ==> b.status.version.Some?)
    && (a.status.registeredAt.Some? ==> b.status.registeredAt.Some?)
  }

  ghost predicate VersionOk(json: string -> bool, incs: nat, at: nat, o: Schema) {
    o.rv == at && o.inc < incs && SpecValid(json, o.spec) && ChainOk(o)
  }

  ghost predicate HistoryOk(json: string -> bool, incs: nat, h: seq<Option<Schema>>) {
    && |h| > 0
    && (forall i :: 0 <= i < |h| && h[i].Some? ==> VersionOk(json, incs, i, h[i].value))
    && (forall i, j :: 0 <= i < j < |h| && h[i].Some? && h[j].Some? ==>
          h[i].value.inc <= h[j].value.inc && (h[i].value.inc == h[j].value.inc ==> Follows(h[i].value, h[j].value)))
    && (forall i, m, j :: 0 <= i < m < j < |h| && h[i].Some? && h[m].None? && h[j].Some? ==>
         h[i].value.inc < h[j].value.inc)
  }

  ghost predicate HasFinalizer(v: Option<Schema>, inc: nat) {
    v.Some? && v.value.inc == inc && FINALIZER in v.value.finalizers
  }

  /** What the cache shows, or has yet to show, of a finalizer on an undeleted object is still true. */
  ghost predicate FinalizerOk(s: Slot<Schema>) {
    forall i :: s.seen <= i < |s.hist| && s.hist[i].Some? &&
                !s.hist[i].value.deleting && FINALIZER in s.hist[i].value.finalizers ==>
                  HasFinalizer(Live(s), s.hist[i].value.inc)
  }

  ghost predicate ThreadOk(ks: KeyState) {
    HasObj(ks.pc) ==>
      var o := ks.pc.obj;
      && o.rv <= ks.slot.seen
      && ks.slot.hist[o.rv] == Some(o)
      && (Cleaning(ks.pc) ==> o.deleting && FINALIZER in o.finalizers)
      && (ks.pc.AddFinalizer? ==> !o.deleting && FINALIZER !in o.finalizers)
      && (Registering(ks.pc) ==> HasFinalizer(Live(ks.slot), o.inc))
  }

  /** While the key is not marked, the reconcile's copy is what the cache shows, and the branch it
      took is still the right one. */
  ghost predicate FreshOk(ks: KeyState) {
    !ks.dirty && HasObj(ks.pc) ==>
      && Cached(ks.slot) == Some(ks.pc.obj)
      && (Registering(ks.pc) ==> !ks.pc.obj.deleting)
      && (ks.pc.StatusWrite? ==> ks.pc.posted == RequestOf(ks.pc.obj.spec))
  }

  ghost predicate IntentOk(ks: KeyState) {
    Live(ks.slot).Some? ==> Live(ks.slot).value.spec == ks.intent
  }

  ghost predicate KeyInv(json: string -> bool, ks: KeyState) {
    && HistoryOk(json, ks.incs, ks.slot.hist)
    && FinalizerOk(ks.slot)
    && ThreadOk(ks)
    && FreshOk(ks)
    && IntentOk(ks)
  }

  // ----- histories -----

  lemma AppendNothing(json: string -> bool, incs: nat, h: seq<Option<Schema>>)
    requires HistoryOk(json, incs, h)
    ensures HistoryOk(json, incs, h + [None])
  {
  }

  lemma AppendVersion(json: string -> bool, incs: nat, h: seq<Option<Schema>>, o: Schema)
    requires HistoryOk(json, incs, h) && h[|h| - 1].Some?
    requires VersionOk(json, incs, |h|, o)
    requires o.inc == h[|h| - 1].value.inc && Follows(h[|h| - 1].value, o)
    ensures HistoryOk(json, incs, h + [Some(o)])
  {
    var h' := h + [Some(o)];
    var l := h[|h| - 1].value;
    forall i | 0 <= i < |h| && h[i].Some?
      ensures h[i].value.inc <= o.inc && (h[i].value.inc == o.inc ==> Follows(h[i].value, o))
    {
      assert i < |h| - 1 ==> h[i].value.inc <= l.inc;
      if i < |h| - 1 && h[i].value.inc == o.inc { FollowsIsTransitive(h[i].value, l, o); }
    }
    forall i, j | 0 <= i < j < |h'| && h'[i].Some? && h'[j].Some?
      ensures h'[i].value.inc <= h'[j].value.inc &&
              (h'[i].value.inc == h'[j].value.inc ==> Follows(h'[i].value, h'[j].value))
    {
      if j < |h| { assert h'[i] == h[i] && h'[j] == h[j]; }
    }
    forall i, m, j | 0 <= i < m < j < |h'| && h'[i].Some? && h'[m].None? && h'[j].Some?
      ensures h'[i].value.inc < h'[j].value.inc
    {
      assert h'[i] == h[i] && h'[m] == h[m];
      if j == |h| { assert m < |h| - 1; }
    }
  }

  lemma FollowsIsTransitive(a: Schema, b: Schema, c: Schema)
    requires Follows(a, b) && Follows(b, c)
    ensures Follows(a, c)
  {
    hide ChainOk;
  }

  lemma AppendNew(json: string -> bool, incs: nat, h: seq<Option<Schema>>, o: Schema)
    requires HistoryOk(json, incs, h) && h[|h| - 1].None?
    requires VersionOk(json, incs + 1, |h|, o) && o.inc == incs
    ensures HistoryOk(json, incs + 1, h + [Some(o)])
  {
  }

  /** Between two versions of one object there is nothing but versions of that object. */
  lemma SameObjectBetween(json: string -> bool, incs: nat, h: seq<Option<Schema>>, i: nat, m: nat, j: nat)
    requires HistoryOk(json, incs, h) && i <= m <= j < |h|
    requires h[i].Some? && h[j].Some? && h[i].value.inc == h[j].value.inc
    ensures h[m].Some? && h[m].value.inc == h[i].value.inc
    ensures m == i || Follows(h[i].value, h[m].value)
    ensures m == j || Follows(h[m].value, h[j].value)
  {
  }

  /** A store that respects the order of versions keeps the history and every promise about the
      finalizer. */
  lemma StoreKeeps(json: string -> bool, incs: nat, s: Slot<Schema>, o: Schema)
    requires HistoryOk(json, incs, s.hist) && FinalizerOk(s) && Live(s).Some?
    requires o.inc == Live(s).value.inc && Follows(Live(s).value, o)
    requires VersionOk(json, incs, |s.hist|, o.(rv := |s.hist|))
    requires FINALIZER in Live(s).value.finalizers ==> FINALIZER in o.finalizers
    ensures HistoryOk(json, incs, Store(s, o).hist) && FinalizerOk(Store(s, o))
    ensures Store(s, o).seen == s.seen && s.hist <= Store(s, o).hist
    ensures FINALIZER in o.finalizers ==> HasFinalizer(Live(Store(s, o)), o.inc)
  {
    var s', h := Store(s, o), s.hist;
    assert o.(rv := |h|).status == o.status;
    if s' != s {
      StoreKeepsFinalizer(s, o);
      assert Follows(h[|h| - 1].value, o.(rv := |h|)) by { hide HistoryOk, ChainOk, FinalizerOk, FindCondition; }
      hide VersionOk, Follows, FinalizerOk;
      if o.deleting && o.finalizers == {} {
        AppendNothing(json, incs, h);
      } else {
        AppendVersion(json, incs, h, o.(rv := |h|));
      }
      hide HistoryOk;
    }
  }

  lemma StoreKeepsFinalizer(s: Slot<Schema>, o: Schema)
    requires FinalizerOk(s) && Live(s).Some? && o.inc == Live(s).value.inc
    requires Live(s).value.deleting ==> o.deleting
    requires FINALIZER in Live(s).value.finalizers ==> FINALIZER in o.finalizers
    ensures FinalizerOk(Store(s, o))
  {
    var s' := Store(s, o);
    forall i | s'.seen <= i < |s'.hist| && s'.hist[i].Some? && !s'.hist[i].value.deleting &&
      FINALIZER in s'.hist[i].value.finalizers
      ensures HasFinalizer(Live(s'), s'.hist[i].value.inc)
    {
      if i < |s.hist| { assert s'.hist[i] == s.hist[i]; }
    }
  }
}
