/** The SchemaRegistry controller: every key it watches, the Secrets as its cache shows them, and a
    reconcile advanced one API call at a time. */
module Health {
  import opened Kube
  import opened Api
  import opened Auth

  const READY := "Ready"

  datatype Status = Status(connectionStatus: string, lastChecked: Option<nat>, observedGeneration: nat,
      conditions: seq<Condition>)

  const NO_STATUS := Status("", None, 0, [])

  datatype Object = Object(rv: nat, generation: nat, spec: RegistrySpec, status: Status)

  /** `Check` is the health check, whose error, if any, `Fetch` and `Write` carry. */
  datatype Pc =
    | Idle
    | Start
    | LoadAuth(obj: Object)
    | LoadCa(obj: Object, config: AuthConfig, caName: string)
    | Check(obj: Object)
    | Fetch(obj: Object, error: Option<string>)
    | Write(obj: Object, error: Option<string>, now: nat)
    | FailFetch(obj: Object, cause: AuthError)
    | FailWrite(obj: Object, cause: AuthError, now: nat)

  datatype KeyState = KeyState(slot: Slot<Object>, dirty: bool, timer: bool, pc: Pc)

  datatype World = World(parse: KeyPairParser, keys: map<Key, KeyState>, secrets: map<Key, Slot<SecretData>>,
      clock: nat)

  datatype Action =
    | UserWrite(key: Key, spec: RegistrySpec)
    | UserDelete(key: Key)
    | EditSecret(secret: Key, content: Option<SecretData>)
    | Deliver(key: Key, to: nat)
    | DeliverSecret(secret: Key, to: nat)
    | Fire(key: Key)
    | Dequeue(key: Key)
    | Tick
    | Restart
    | Call(key: Key, outcome: Outcome)

  function CachedSecrets(w: World): SecretStore {
    map k | k in w.secrets && Cached(w.secrets[k]).Some? :: Cached(w.secrets[k]).value
  }

  function LiveSecrets(w: World): SecretStore {
    map k | k in w.secrets && Live(w.secrets[k]).Some? :: Live(w.secrets[k]).value
  }

  /** The block that a type of credentials needs. */
  function BlockName(kind: AuthType): string {
    match kind
    case BASIC => "basicAuth"
    case BEARER => "bearerAuth"
    case _ => "mtls"
  }

  function TypeName(kind: AuthType): string {
    match kind
    case BASIC => "BASIC"
    case BEARER => "BEARER"
    case _ => "MTLS"
  }

  /** What the Secret of a type of credentials is called. */
  function SecretName(kind: AuthType): string {
    match kind
    case BASIC => "basic auth"
    case BEARER => "bearer auth"
    case _ => "client cert"
  }

  /** The text of the errors that loading can return; library errors are left out of it. */
  function ErrorText(e: AuthError): string {
    match e
    case ConfigMissing(kind) => BlockName(kind) + " config is required when type is " + TypeName(kind)
    case SecretMissing(kind, name) => "failed to get " + SecretName(kind) + " secret " + name
    case CertificateInvalid => "failed to parse client certificate"
    case CaSecretMissing(name) => "failed to get " + "CA cert" + " secret " + name
  }

  // ----- statuses -----

  function CheckedStatus(o: Object, error: Option<string>, now: nat): Status {
    o.status.(observedGeneration := o.generation, lastChecked := Some(now),
              connectionStatus := if error.Some? then "Unreachable" else "Connected",
              conditions := SetStatusCondition(o.status.conditions,
                if error.Some? then Condition(READY, IsFalse, "ConnectionFailed", Text(error.value), o.generation, now)
                else Condition(READY, IsTrue, "Connected", Text("Successfully connected to Schema Registry"),
                  o.generation, now), now))
  }

  function FailedStatus(o: Object, cause: AuthError, now: nat): Status {
    o.status.(connectionStatus := "Unreachable",
              conditions := SetStatusCondition(o.status.conditions,
                Condition(READY, IsFalse, "AuthLoadFailed", Text(ErrorText(cause)), o.generation, now), now))
  }

  // ----- the API server -----

  function Store(s: Slot<Object>, o: Object): Slot<Object>
    requires Live(s).Some?
  {
    if o == Live(s).value then s else Append(s, Some(o.(rv := |s.hist|)))
  }

  function ApiUpdateStatus(s: Slot<Object>, sent: Object): Option<Slot<Object>> {
    if Live(s).None? || Live(s).value.rv != sent.rv then None
    else Some(Store(s, Live(s).value.(status := sent.status)))
  }

  function UserStore(s: Slot<Object>, spec: RegistrySpec): Slot<Object> {
    if Live(s).None? then Append(s, Some(Object(|s.hist|, 1, spec, NO_STATUS)))
    else
      var l := Live(s).value;
      Store(s, l.(spec := spec, generation := if spec == l.spec then l.generation else l.generation + 1))
  }

  // ----- the reconcile -----

  function Finish(ks: KeyState, retry: bool): KeyState {
    ks.(pc := Idle, timer := ks.timer || retry)
  }

  function Written(ks: KeyState, stored: Option<Slot<Object>>, outcome: Outcome): (KeyState, bool) {
    if stored.None? || outcome.Refused? then (ks, false) else (ks.(slot := stored.value), outcome.Done?)
  }

  /** One call of `Reconcile`. A finished check asks to be called again in any case; a failure to load
      credentials only if its report could not be written. */
  function Advance(parse: KeyPairParser, ns: string, secrets: SecretStore, ks: KeyState, outcome: Outcome,
      now: nat): KeyState {
    match ks.pc
    case Idle => ks
    case Start => if Cached(ks.slot).None? then Finish(ks, false) else ks.(pc := LoadAuth(Cached(ks.slot).value))
    case LoadAuth(o) =>
      (match ReadFirst(parse, ns, o.spec, secrets)
       case Failed(e) => ks.(pc := FailFetch(o, e))
       case Loaded(_) => ks.(pc := Check(o))
       case NeedsCa(config, name) => ks.(pc := LoadCa(o, config, name)))
    case LoadCa(o, config, name) =>
      (match ReadCa(ns, config, name, secrets)
       case Err(e) => ks.(pc := FailFetch(o, e))
       case Ok(_) => ks.(pc := Check(o)))
    case Check(o) => ks.(pc := Fetch(o, if outcome.Done? then None else Some("health check failed")))
    case Fetch(_, error) =>
      if Cached(ks.slot).None? then Finish(ks, false) else ks.(pc := Write(Cached(ks.slot).value, error, now))
    case Write(o, error, at) =>
      var (ks', ok) := Written(ks, ApiUpdateStatus(ks.slot, o.(status := CheckedStatus(o, error, at))), outcome);
      Finish(ks', true)
    case FailFetch(_, cause) =>
      if Cached(ks.slot).None? then Finish(ks, false) else ks.(pc := FailWrite(Cached(ks.slot).value, cause, now))
    case FailWrite(o, cause, at) =>
      var (ks', ok) := Written(ks, ApiUpdateStatus(ks.slot, o.(status := FailedStatus(o, cause, at))), outcome);
      Finish(ks', !ok)
  }

  // ----- the system -----

  /** `findSchemaRegistriesForSecret` over the cache. */
  predicate WokenBy(sk: Key, k: Key, ks: KeyState) {
    Cached(ks.slot).Some? && k.namespace == sk.namespace && ReferencesSecret(Cached(ks.slot).value.spec, sk.name)
  }

  predicate Enabled(w: World, a: Action) {
    match a
    case UserWrite(k, _) => k in w.keys
    case UserDelete(k) => k in w.keys && Live(w.keys[k].slot).Some?
    case EditSecret(sk, _) => sk in w.secrets
    case Deliver(k, to) => k in w.keys && w.keys[k].slot.seen < to < |w.keys[k].slot.hist|
    case DeliverSecret(sk, to) => sk in w.secrets && w.secrets[sk].seen < to < |w.secrets[sk].hist|
    case Fire(k) => k in w.keys && w.keys[k].timer
    case Dequeue(k) => k in w.keys && w.keys[k].dirty && w.keys[k].pc.Idle?
    case Tick => true
    case Restart => true
    case Call(k, _) => k in w.keys && !w.keys[k].pc.Idle?
  }

  function Apply(w: World, a: Action): World
    requires Enabled(w, a)
  {
    match a
    case UserWrite(k, spec) => w.(keys := w.keys[k := w.keys[k].(slot := UserStore(w.keys[k].slot, spec))])
    case UserDelete(k) => w.(keys := w.keys[k := w.keys[k].(slot := Append(w.keys[k].slot, None))])
    case EditSecret(sk, content) => w.(secrets := w.secrets[sk := Append(w.secrets[sk], content)])
    case Deliver(k, to) => w.(keys := w.keys[k := w.keys[k].(slot := AdvanceTo(w.keys[k].slot, to), dirty := true)])
    case DeliverSecret(sk, to) =>
      w.(secrets := w.secrets[sk := AdvanceTo(w.secrets[sk], to)],
         keys := map k | k in w.keys :: if WokenBy(sk, k, w.keys[k]) then w.keys[k].(dirty := true) else w.keys[k])
    case Fire(k) => w.(keys := w.keys[k := w.keys[k].(timer := false, dirty := true)])
    case Dequeue(k) => w.(keys := w.keys[k := w.keys[k].(dirty := false, pc := Start)])
    case Tick => w.(clock := w.clock + 1)
    case Restart =>
      w.(keys := map k | k in w.keys :: w.keys[k].(dirty := Cached(w.keys[k].slot).Some?, timer := false, pc := Idle))
    case Call(k, outcome) =>
      w.(keys := w.keys[k := Advance(w.parse, k.namespace, CachedSecrets(w), w.keys[k], outcome, w.clock)])
  }

  ghost predicate ValidRun(w: World, run: seq<Action>)
    decreases |run|
  {
    run == [] || (Enabled(w, run[0]) && ValidRun(Apply(w, run[0]), run[1..]))
  }

  ghost function Run(w: World, run: seq<Action>): World
    requires ValidRun(w, run)
    decreases |run|
  {
    if run == [] then w else Run(Apply(w, run[0]), run[1..])
  }

  ghost predicate Initial(w: World) {
    forall k :: k in w.keys ==> w.keys[k] == KeyState(Slot([None], 0), false, false, Idle)
  }

  ghost predicate Reaches(start: World, run: seq<Action>, w: World) {
    ValidRun(start, run) && Run(start, run) == w
  }

  ghost predicate Reachable(w: World) {
    exists start, run :: Initial(start) && Reaches(start, run, w)
  }

  // ----- the invariant -----

  function Ready(o: Object): Option<Condition> {
    FindCondition(o.status.conditions, READY)
  }

  /** The two ways of telling a registry's health agree. */
  ghost predicate Coherent(o: Object) {
    && CountKind(o.status.conditions, READY) <= 1
    && (o.status.connectionStatus == "Connected" <==> Ready(o).Some? && Ready(o).value.status == IsTrue)
    && (o.status.connectionStatus == "Unreachable" <==> Ready(o).Some? && Ready(o).value.status == IsFalse)
    && (o.status.connectionStatus == "" <==> Ready(o).None?)
  }

  predicate HasObj(pc: Pc) {
    !pc.Idle? && !pc.Start?
  }

  ghost predicate KeyInv(ks: KeyState) {
    && (forall i :: 0 <= i < |ks.slot.hist| && ks.slot.hist[i].Some? ==>
         ks.slot.hist[i].value.rv == i && Coherent(ks.slot.hist[i].value))
    && (HasObj(ks.pc) ==> ks.pc.obj.rv <= ks.slot.seen && ks.slot.hist[ks.pc.obj.rv] == Some(ks.pc.obj))
    && (!ks.dirty && HasObj(ks.pc) ==> Cached(ks.slot) == Some(ks.pc.obj))
  }

  /** While the key is not marked, what the reconcile has learned from Secrets is still true. */
  ghost predicate AuthOk(parse: KeyPairParser, ns: string, secrets: SecretStore, ks: KeyState) {
    !ks.dirty ==>
      && (ks.pc.LoadCa? ==> ReadFirst(parse, ns, ks.pc.obj.spec, secrets) == NeedsCa(ks.pc.config, ks.pc.caName))
      && (ks.pc.FailFetch? || ks.pc.FailWrite? ==> Load(parse, ns, ks.pc.obj.spec, secrets) == Err(ks.pc.cause))
  }

  ghost predicate AuthInv(w: World, k: Key)
    requires k in w.keys
  {
    AuthOk(w.parse, k.namespace, CachedSecrets(w), w.keys[k])
  }

  /** The report of a failure to load credentials. */
  ghost predicate Reports(o: Object, e: AuthError) {
    && o.status.connectionStatus == "Unreachable"
    && Ready(o).Some?
    && Ready(o).value.(lastTransition := 0) ==
       Condition(READY, IsFalse, "AuthLoadFailed", Text(ErrorText(e)), o.generation, 0)
  }

  predicate Quiet(ks: KeyState) {
    !ks.dirty && !ks.timer && ks.pc.Idle? && Delivered(ks.slot)
  }

  ghost predicate QuietInv(w: World, k: Key)
    requires k in w.keys
  {
    var ks := w.keys[k];
    Quiet(ks) && Live(ks.slot).Some? ==>
      var o := Live(ks.slot).value;
      var r := Load(w.parse, k.namespace, o.spec, CachedSecrets(w));
      r.Err? && Reports(o, r.error)
  }

  ghost predicate Inv(w: World) {
    forall k :: k in w.keys ==> KeyInv(w.keys[k]) && AuthInv(w, k) && QuietInv(w, k)
  }
}
