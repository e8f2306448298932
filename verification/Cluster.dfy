/** The whole system: every Schema key, the SchemaRegistry objects as the Schema controller sees
    them, the external registries, and a record of what the operator has registered. An action is
    one API call, one event delivery or one move of somebody else; a run is any sequence of them. */
module Cluster {
  import opened Kube
  import opened Api
  import opened Registry
  import opened Auth
  import opened SchemaKey

  /** A registration of `subject` at `url` made on behalf of object number `inc` of `key`. */
  datatype Binding = Binding(url: string, subject: string, key: Key, inc: nat)

  /** A registration whose answer reached the operator. */
  datatype Ack = Ack(key: Key, inc: nat, url: string, subject: string, request: Request, id: nat)

  /** `ledger` holds the registrations whose subject still exists, and `abandoned` those of them
      that no custom resource answers for any more. */
  datatype World = World(json: string -> bool, keys: map<Key, KeyState>, registries: map<Key, Slot<RegistrySpec>>,
                         remotes: map<string, Registry>, clock: nat,
                         ledger: set<Binding>, abandoned: set<Binding>, acks: set<Ack>)

  datatype Action =
    | UserCreate(key: Key, spec: SchemaSpec, finalizers: set<string>)
    | UserUpdate(key: Key, spec: SchemaSpec, finalizers: set<string>)
    | UserDelete(key: Key)
    | EditRegistry(registry: Key, content: Option<RegistrySpec>)
    | Deliver(key: Key, to: nat)
    | DeliverRegistry(registry: Key, to: nat)
    | Fire(key: Key)
    | Dequeue(key: Key)
    | Tick
    | Restart
    | Remote(url: string, op: Op)
    | Call(key: Key, outcome: Outcome)

  // ----- lookups -----

  function RemoteAt(w: World, url: string): Registry {
    if url in w.remotes then w.remotes[url] else EMPTY
  }

  /** The URL of a SchemaRegistry as the cache shows it. */
  function LookupUrl(w: World, rk: Key): Option<string> {
    if rk in w.registries && Cached(w.registries[rk]).Some? then Some(Cached(w.registries[rk]).value.url) else None
  }

  function UrlFor(w: World, k: Key, o: Schema): Option<string> {
    LookupUrl(w, Resolve(k, o.spec.registryRef))
  }

  function InputFor(w: World, k: Key, outcome: Outcome): Input
    requires k in w.keys
  {
    match w.keys[k].pc
    case CleanupGetRegistry(o) => Input(outcome, UrlFor(w, k, o), 0, 0, w.clock)
    case GetRegistry(o) => Input(outcome, UrlFor(w, k, o), 0, 0, w.clock)
    case Post(o, url) => Input(outcome, None, IdOf(RemoteAt(w, url), o.spec.subject, RequestOf(o.spec)), 0, w.clock)
    case Latest(o, url, id) => Input(outcome, None, 0, ReportedVersion(RemoteAt(w, url), o.spec.subject, outcome),
      w.clock)
    case _ => Input(outcome, None, 0, 0, w.clock)
  }

  // ----- effects of a call -----

  function RemotesAfter(w: World, pc: Pc, outcome: Outcome): map<string, Registry> {
    if outcome.Refused? then w.remotes
    else
      match pc
      case Post(o, url) => w.remotes[url := Register(RemoteAt(w, url), o.spec.subject, RequestOf(o.spec))]
      case Compat(o, url, _, _) => w.remotes[url :=
        SetLevel(RemoteAt(w, url), o.spec.subject, o.spec.compatibilityLevel)]
      case CleanupDelete(o, url) => w.remotes[url := Delete(RemoteAt(w, url), o.spec.subject)]
      case _ => w.remotes
  }

  function Without(bs: set<Binding>, url: string, subject: string): set<Binding> {
    set b | b in bs && !(b.url == url && b.subject == subject)
  }

  function LedgerAfter(w: World, k: Key, pc: Pc, outcome: Outcome): set<Binding> {
    if outcome.Refused? then w.ledger
    else
      match pc
      case Post(o, url) => w.ledger + {Binding(url, o.spec.subject, k, o.inc)}
      case CleanupDelete(o, url) => Without(w.ledger, url, o.spec.subject)
      case _ => w.ledger
  }

  /** The finalizer of object `pc.obj` goes with this call. */
  predicate RemovesFinalizer(w: World, k: Key, outcome: Outcome)
    requires k in w.keys
  {
    && w.keys[k].pc.CleanupFinalize?
    && !outcome.Refused?
    && var o := w.keys[k].pc.obj;
       ApiUpdate(w.json, w.keys[k].slot, o.(finalizers := o.finalizers - {FINALIZER})).Some?
  }

  function LeftBy(bs: set<Binding>, k: Key, inc: nat): set<Binding> {
    set b | b in bs && b.key == k && b.inc == inc
  }

  function AbandonedAfter(w: World, k: Key, outcome: Outcome): set<Binding>
    requires k in w.keys
  {
    var pc := w.keys[k].pc;
    if RemovesFinalizer(w, k, outcome) then w.abandoned + LeftBy(w.ledger, k, pc.obj.inc)
    else if pc.CleanupDelete? && !outcome.Refused? then Without(w.abandoned, pc.url, pc.obj.spec.subject)
    else w.abandoned
  }

  function AcksAfter(w: World, k: Key, pc: Pc, outcome: Outcome): set<Ack> {
    if pc.Post? && outcome.Done? then
      var request := RequestOf(pc.obj.spec);
      w.acks + {Ack(k, pc.obj.inc, pc.url, pc.obj.spec.subject, request,
                    IdOf(RemoteAt(w, pc.url), pc.obj.spec.subject, request))}
    else w.acks
  }

  function CallBy(w: World, k: Key, outcome: Outcome): World
    requires k in w.keys
  {
    var ks := w.keys[k];
    w.(keys := w.keys[k := SchemaKey.Advance(w.json, ks, InputFor(w, k, outcome))],
       remotes := RemotesAfter(w, ks.pc, outcome),
       ledger := LedgerAfter(w, k, ks.pc, outcome),
       abandoned := AbandonedAfter(w, k, outcome),
       acks := AcksAfter(w, k, ks.pc, outcome))
  }

  // ----- events of a SchemaRegistry -----

  /** `findSchemasForRegistry` over the cache. */
  predicate WokenBy(rk: Key, k: Key, ks: KeyState) {
    Cached(ks.slot).Some? && k.namespace == rk.namespace && Cached(ks.slot).value.spec.registryRef.name == rk.name
  }

  function Wake(w: World, rk: Key): map<Key, KeyState> {
    map k | k in w.keys :: if WokenBy(rk, k, w.keys[k]) then Mark(w.keys[k]) else w.keys[k]
  }

  // ----- runs -----

  predicate Enabled(w: World, a: Action) {
    match a
    case UserCreate(k, spec, _) => k in w.keys && MayCreate(w.json, w.keys[k], spec)
    case UserUpdate(k, spec, fs) => k in w.keys && MayUpdate(w.json, w.keys[k], spec, fs)
    case UserDelete(k) => k in w.keys && Live(w.keys[k].slot).Some?
    case EditRegistry(rk, _) => rk in w.registries
    case Deliver(k, to) => k in w.keys && w.keys[k].slot.seen < to < |w.keys[k].slot.hist|
    case DeliverRegistry(rk, to) => rk in w.registries && w.registries[rk].seen < to < |w.registries[rk].hist|
    case Fire(k) => k in w.keys && w.keys[k].timer
    case Dequeue(k) => k in w.keys && w.keys[k].dirty && w.keys[k].pc.Idle?
    case Tick => true
    case Restart => true
    case Remote(_, op) => !op.Attempt?
    case Call(k, _) => k in w.keys && !w.keys[k].pc.Idle?
  }

  function Apply(w: World, a: Action): World
    requires Enabled(w, a)
  {
    match a
    case UserCreate(k, spec, fs) => w.(keys := w.keys[k := SchemaKey.Create(w.keys[k], spec, fs)])
    case UserUpdate(k, spec, fs) => w.(keys := w.keys[k := SchemaKey.Update(w.keys[k], spec, fs)])
    case UserDelete(k) => w.(keys := w.keys[k := SchemaKey.DeleteByUser(w.keys[k])])
    case EditRegistry(rk, content) => w.(registries := w.registries[rk := Append(w.registries[rk], content)])
    case Deliver(k, to) => w.(keys := w.keys[k := SchemaKey.Deliver(w.keys[k], to)])
    case DeliverRegistry(rk, to) =>
      w.(registries := w.registries[rk := AdvanceTo(w.registries[rk], to)], keys := Wake(w, rk))
    case Fire(k) => w.(keys := w.keys[k := SchemaKey.Fire(w.keys[k])])
    case Dequeue(k) => w.(keys := w.keys[k := SchemaKey.Dequeue(w.keys[k])])
    case Tick => w.(clock := w.clock + 1)
    case Restart => w.(keys := map k | k in w.keys :: SchemaKey.Restart(w.keys[k]))
    case Remote(url, op) =>
      w.(remotes := w.remotes[url := Perform(RemoteAt(w, url), op)],
         ledger := if op.ForeignDelete? then Without(w.ledger, url, op.subject) else w.ledger,
         abandoned := if op.ForeignDelete? then Without(w.abandoned, url, op.subject) else w.abandoned)
    case Call(k, outcome) => CallBy(w, k, outcome)
  }

  ghost predicate ValidRun(w: World, run: seq<Action>)
    decreases |run|
  {
    run == [] || (Enabled(w, run[0]) && ValidRun(Apply(w, run[0]), run[1..]))
  }

  ghost function Run(w: World, run: seq<Action>): World
    requires ValidRun(w, run)
    decreases |run|
  {
    if run == [] then w else Run(Apply(w, run[0]), run[1..])
  }

  /** A key that nothing has happened to. */
  ghost predicate Untouched(ks: KeyState) {
    ks.slot == Slot([None], 0) && ks.incs == 0 && !ks.dirty && !ks.timer && ks.pc.Idle?
  }

  /** No Schema exists yet; registries may hold anything. */
  ghost predicate Initial(w: World) {
    && (forall k :: k in w.keys ==> Untouched(w.keys[k]))
    && (forall url :: url in w.remotes ==> RegistryOk(w.remotes[url]))
    && w.ledger == {} && w.abandoned == {} && w.acks == {}
  }

  ghost predicate Reachable(w: World) {
    exists start, run :: Initial(start) && Reaches(start, run, w)
  }

  ghost predicate Reaches(start: World, run: seq<Action>, w: World) {
    ValidRun(start, run) && Run(start, run) == w
  }

  // ----- the invariant -----

  /** The URL a registering reconcile works with. */
  function UrlOf(pc: Pc): Option<string> {
    match pc
    case LoadAuth(_, url) => Some(url)
    case Post(_, url) => Some(url)
    case Latest(_, url, _) => Some(url)
    case Compat(_, url, _, _) => Some(url)
    case StatusFetch(_, url, _, _) => Some(url)
    case StatusWrite(_, url, _, _, _, _) => Some(url)
    case _ => None
  }

  /** The registration a reconcile is about to report. */
  function AckOf(k: Key, pc: Pc): Option<Ack> {
    match pc
    case Latest(o, url, id) => Some(Ack(k, o.inc, url, o.spec.subject, RequestOf(o.spec), id))
    case Compat(o, url, id, _) => Some(Ack(k, o.inc, url, o.spec.subject, RequestOf(o.spec), id))
    case StatusFetch(o, url, id, _) => Some(Ack(k, o.inc, url, o.spec.subject, RequestOf(o.spec), id))
    case StatusWrite(o, url, id, _, posted, _) => Some(Ack(k, o.inc, url, o.spec.subject, posted, id))
    case _ => None
  }

  ghost predicate AckInv(w: World, k: Key)
    requires k in w.keys
  {
    AckOf(k, w.keys[k].pc).Some? ==> AckOf(k, w.keys[k].pc).value in w.acks
  }

  ghost predicate UrlInv(w: World, k: Key)
    requires k in w.keys
  {
    var ks := w.keys[k];
    !ks.dirty && UrlOf(ks.pc).Some? && OwnNamespace(k, ks.pc.obj.spec.registryRef) ==>
        UrlFor(w, k, ks.pc.obj) == UrlOf(ks.pc)
  }

  /** The id in the status answers a request built from exactly this version's specification. */
  ghost predicate AnsweredAt(w: World, k: Key, o: Schema, url: string) {
    && o.status.schemaId.Some?
    && Ack(k, o.inc, url, o.spec.subject, RequestOf(o.spec), o.status.schemaId.value) in w.acks
    && (OwnNamespace(k, o.spec.registryRef) ==> UrlFor(w, k, o) == Some(url))
  }

  ghost predicate Synchronised(w: World, k: Key, o: Schema) {
    && Ready(o).Some? && Ready(o).value.status == IsTrue
    && o.status.observedGeneration == o.generation
    && exists url :: AnsweredAt(w, k, o, url)
  }

  /** Nothing is queued, in flight, delayed or under way for this key. */
  predicate Quiet(ks: KeyState) {
    !ks.dirty && !ks.timer && ks.pc.Idle? && Delivered(ks.slot)
  }

  ghost predicate QuietInv(w: World, k: Key)
    requires k in w.keys
  {
    var ks := w.keys[k];
    Quiet(ks) && Live(ks.slot).Some? ==>
      var o := Live(ks.slot).value;
      if o.deleting then FINALIZER !in o.finalizers else Synchronised(w, k, o)
  }

  /** A cleanup only ever deals with the newest object the operator has registered for, and after
      its DELETE nothing of that object is left at that URL. */
  ghost predicate CleanupInv(ledger: set<Binding>, k: Key, pc: Pc) {
    && (Cleaning(pc) ==> forall b :: b in ledger && b.key == k ==> b.inc <= pc.obj.inc)
    && (pc.CleanupFinalize? && pc.cleaned.Some? ==>
          forall b :: b in ledger && b.key == k && b.inc == pc.obj.inc ==> b.url != pc.cleaned.value)
  }

  ghost predicate LinkInv(w: World, k: Key)
    requires k in w.keys
  {
    AckInv(w, k) && UrlInv(w, k) && QuietInv(w, k) && CleanupInv(w.ledger, k, w.keys[k].pc)
  }

  /** The cache has shown object number `inc`, naming that subject. */
  ghost predicate HasShown(s: Slot<Schema>, inc: nat, subject: string) {
    exists i :: 0 <= i <= s.seen && s.hist[i].Some? && s.hist[i].value.inc == inc &&
      s.hist[i].value.spec.subject == subject
  }

  /** The object of a binding is alive, carries the finalizer and still names the subject. */
  ghost predicate Bound(keys: map<Key, KeyState>, b: Binding) {
    && b.key in keys
    && HasFinalizer(Live(keys[b.key].slot), b.inc)
    && Live(keys[b.key].slot).value.spec.subject == b.subject
  }

  ghost predicate BindingInv(w: World, b: Binding) {
    && b.key in w.keys
    && b.subject in RemoteAt(w, b.url).subjects
    && HasShown(w.keys[b.key].slot, b.inc, b.subject)
    && (b in w.abandoned || Bound(w.keys, b))
  }

  ghost predicate Inv(w: World) {
    && (forall k :: k in w.keys ==> KeyInv(w.json, w.keys[k]))
    && (forall k :: k in w.keys ==> LinkInv(w, k))
    && (forall b :: b in w.ledger ==> BindingInv(w, b))
    && w.abandoned <= w.ledger
    && (forall url :: url in w.remotes ==> RegistryOk(w.remotes[url]))
  }
}
