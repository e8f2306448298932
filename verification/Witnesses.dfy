/** Runs that show why the theorems are not stated more strongly. */
module Witnesses {
  import opened Kube
  import opened Api
  import opened Admission
  import opened Registry
  import opened Auth
  import opened SchemaKey
  import opened Cluster
  import opened ClusterProofs
  import opened CallProofs
  import opened Fixpoint

  const K := Key("team", "orders")
  const R := Key("team", "registry")

  function Spec(text: string): SchemaSpec {
    SchemaSpec("orders-value", PROTOBUF, text, [], RegistryRef("registry", ""), "")
  }

  function Empty(): KeyState {
    KeyState(Slot([None], 0), 0, Spec(""), false, false, Idle)
  }

  function Zero(rk: Key): World {
    World((_: string) => true, map[K := Empty()], map[rk := Slot([None], 0)], map[], 0, {}, {}, {})
  }

  function RegistryAt(url: string): RegistrySpec {
    RegistrySpec(url, None, false, 30)
  }

  /** The registry is known at `url` and nothing is registered. */
  function Known(rk: Key): World {
    Zero(rk).(registries := map[rk := Slot([None, Some(RegistryAt("u1"))], 1)])
  }

  function Put(base: World, ks: KeyState): World {
    base.(keys := map[K := ks])
  }

  lemma KnownIsReachable(rk: Key)
    ensures Reachable(Put(Known(rk), Empty()))
  {
    var w0 := Zero(rk);
    assert Initial(w0);
    assert Reaches(w0, [], w0);
    var w1 := w0.(registries := map[rk := Slot([None, Some(RegistryAt("u1"))], 0)]);
    assert Append(w0.registries[rk], Some(RegistryAt("u1"))).hist == [None, Some(RegistryAt("u1"))];
    assert w0.registries[rk := w1.registries[rk]] == w1.registries;
    assert Apply(w0, EditRegistry(rk, Some(RegistryAt("u1")))) == w1;
    Extend(w0, EditRegistry(rk, Some(RegistryAt("u1"))));
    hide Reachable;
    assert Wake(w1, rk) == map[K := Empty()];
    assert w1.registries[rk := AdvanceTo(w1.registries[rk], 1)] == Known(rk).registries;
    Extend(w1, DeliverRegistry(rk, 1));
  }

  /** An action that only moves the one key. */
  lemma KeyStep(base: World, ks: KeyState, a: Action, ks': KeyState)
    requires Reachable(Put(base, ks)) && Enabled(Put(base, ks), a)
    requires var w' :=
             Apply(Put(base, ks), a); w'.keys.Keys == {K} && w'.keys[K] == ks' && w' == Put(base, ks).(keys := w'.keys)
    ensures Reachable(Put(base, ks'))
  {
    Extend(Put(base, ks), a);
    hide Reachable, Apply, Enabled;
    assert Apply(Put(base, ks), a).keys == map[K := ks'];
  }

  function FirstVersion(spec: SchemaSpec): Schema {
    Schema(0, 1, 1, false, {FINALIZER}, spec, NO_STATUS)
  }

  /** An object restored together with its finalizer, seen, queued. */
  function Created(spec: SchemaSpec): KeyState {
    KeyState(Slot([None, Some(FirstVersion(spec))], 1), 1, spec, true, false, Idle)
  }

  lemma CreatedIsReachable(spec: SchemaSpec, rk: Key)
    requires SpecValid(_ => true, spec)
    ensures Reachable(Put(Known(rk), Created(spec)))
  {
    KnownIsReachable(rk);
    hide Reachable;
    var v := KeyState(Slot([None, Some(FirstVersion(spec))], 0), 1, spec, false, false, Idle);
    KeyStep(Known(rk), Empty(), UserCreate(K, spec, {FINALIZER}), v);
    KeyStep(Known(rk), v, Action.Deliver(K, 1), Created(spec));
  }

  /** ... taken up, and about to be registered. */
  function Posting(): KeyState {
    Created(Spec("a")).(dirty := false, pc := Post(FirstVersion(Spec("a")), "u1"))
  }

  lemma FindingIsReachable()
    ensures Reachable(Put(Known(R), Created(Spec("a")).(dirty := false, pc := GetRegistry(FirstVersion(Spec("a"))))))
  {
    CreatedIsReachable(Spec("a"), R);
    var c, o := Created(Spec("a")).(dirty := false), FirstVersion(Spec("a"));
    hide Reachable;
    KeyStep(Known(R), Created(Spec("a")), Action.Dequeue(K), c.(pc := Start));
    KeyStep(Known(R), c.(pc := Start), Call(K, Done), c.(pc := GetRegistry(o)));
  }

  lemma PostingIsReachable()
    ensures Reachable(Put(Known(R), Posting()))
  {
    FindingIsReachable();
    var c, o := Created(Spec("a")).(dirty := false), FirstVersion(Spec("a"));
    hide Reachable;
    assert LookupUrl(Put(Known(R), c.(pc := GetRegistry(o))), R) == Some("u1");
    KeyStep(Known(R), c.(pc := GetRegistry(o)), Call(K, Done), c.(pc := LoadAuth(o, "u1")));
    KeyStep(Known(R), c.(pc := LoadAuth(o, "u1")), Call(K, Done), Posting());
  }

  // ----- a generation observed too early -----

  function PostedA(): World {
    var request := RequestOf(Spec("a"));
    Known(R).(remotes := map["u1" := Register(EMPTY, "orders-value", request)],
             ledger := {Binding("u1", "orders-value", K, 0)},
             acks := {Ack(K, 0, "u1", "orders-value", request, 1)})
  }

  lemma PostEffect()
    ensures var w := Put(Known(R), Posting());
            Enabled(w, Call(K, Done)) && Apply(w, Call(K, Done)) == Put(PostedA(), Posted())
  {
    var w := Put(Known(R), Posting());
    var request := RequestOf(Spec("a"));
    assert RemoteAt(w, "u1") == EMPTY && IdOf(EMPTY, "orders-value", request) == 1;
    var w' := Apply(w, Call(K, Done));
    hide Register, IdOf, RequestOf;
    assert w'.keys == map[K := Posted()];
    assert w'.ledger == PostedA().ledger && w'.acks == PostedA().acks && w'.abandoned == {};
    assert w'.remotes == PostedA().remotes;
  }

  function Posted(): KeyState {
    Posting().(pc := Latest(FirstVersion(Spec("a")), "u1", 1))
  }

  lemma PostedIsReachable()
    ensures Reachable(Put(PostedA(), Posted()))
  {
    PostingIsReachable();
    PostEffect();
    hide Reachable, Apply, Enabled;
    Extend(Put(Known(R), Posting()), Call(K, Done));
  }

  /** A user's edit falls between the registration and the re-fetch. */
  function SecondVersion(): Schema {
    FirstVersion(Spec("b")).(rv := 2, generation := 2)
  }

  function Edited(): KeyState {
    Posted().(slot := Slot([None, Some(FirstVersion(Spec("a"))), Some(SecondVersion())], 2), intent :=
      Spec("b"), dirty := true)
  }

  /** The edit, before the cache knows of it. */
  function Unseen(): KeyState {
    Edited().(slot := Slot(Edited().slot.hist, 1), dirty := false)
  }

  lemma UnseenIsReachable()
    ensures Reachable(Put(PostedA(), Unseen()))
  {
    PostedIsReachable();
    hide Reachable, RequestOf, Register;
    KeyStep(PostedA(), Posted(), UserUpdate(K, Spec("b"), {FINALIZER}), Unseen());
  }

  lemma EditedIsReachable()
    ensures Reachable(Put(PostedA(), Edited()))
  {
    UnseenIsReachable();
    hide Reachable;
    KeyStep(PostedA(), Unseen(), Action.Deliver(K, 2), Edited());
  }

  function Writing(): KeyState {
    Edited().(pc := StatusWrite(SecondVersion(), "u1", 1, 0, RequestOf(Spec("a")), 0))
  }

  function Fetching(): KeyState {
    Edited().(pc := StatusFetch(FirstVersion(Spec("a")), "u1", 1, 0))
  }

  lemma FetchingIsReachable()
    ensures Reachable(Put(PostedA(), Fetching()))
  {
    EditedIsReachable();
    hide Reachable, Register;
    KeyStep(PostedA(), Edited(), Call(K, Lost), Fetching());
  }

  lemma WritingIsReachable()
    ensures Reachable(Put(PostedA(), Writing()))
  {
    FetchingIsReachable();
    hide Reachable, Register;
    KeyStep(PostedA(), Fetching(), Call(K, Done), Writing());
  }

  function ThirdVersion(): Schema {
    SecondVersion().(rv := 3, status := RegisteredStatus(SecondVersion(), 1, 0, 0))
  }

  function Misreported(): KeyState {
    Edited().(slot := Slot(Edited().slot.hist + [Some(ThirdVersion())], 2), pc := Idle)
  }

  /** A call that only concerns its own key. */
  lemma PlainCall(w: World, k: Key, outcome: Outcome)
    requires k in w.keys && w.keys[k].pc.StatusWrite?
    ensures Enabled(w, Call(k, outcome))
    ensures Apply(w, Call(k, outcome)) ==
            w.(keys := w.keys[k := SchemaKey.Advance(w.json, w.keys[k], InputFor(w, k, outcome))])
  {
    hide SchemaKey.Advance, InputFor;
  }

  lemma MisreportAdvances(json: string -> bool, i: Input)
    requires i.outcome.Done?
    ensures SchemaKey.Advance(json, Writing(), i) == Misreported()
  {
    assert ThirdVersion().status != SecondVersion().status by { StatusDiffers(); }
    hide RegisteredStatus, RequestOf;
  }

  lemma MisreportEffect()
    ensures var w := Put(PostedA(), Writing());
            && Enabled(w, Call(K, Done))
            && var w' := Apply(w, Call(K, Done));
            w'.keys.Keys == {K} && w'.keys[K] == Misreported() && w' == w.(keys := w'.keys)
  {
    var w := Put(PostedA(), Writing());
    PlainCall(w, K, Done);
    MisreportAdvances(w.json, InputFor(w, K, Done));
    hide Apply, Enabled, SchemaKey.Advance, Misreported, PostedA;
  }

  lemma MisreportedIsReachable()
    ensures Reachable(Put(PostedA(), Misreported()))
  {
    WritingIsReachable();
    hide Reachable;
    MisreportEffect();
    hide Misreported, Writing, PostedA, ThirdVersion, SecondVersion;
    KeyStep(PostedA(), Writing(), Call(K, Done), Misreported());
  }

  lemma StatusDiffers()
    ensures RegisteredStatus(SecondVersion(), 1, 0, 0).schemaId == Some(1) && SecondVersion().status.schemaId == None
  {
  }

  /** A Schema can be Ready for its current generation although nobody ever registered its current
      text: the generation is read after the registration. The key is then not quiet. */
  lemma ObservedGenerationRunsAhead() returns (w: World)
    ensures Reachable(w) && K in w.keys && Live(w.keys[K].slot).Some?
    ensures var o := Live(w.keys[K].slot).value;
            && Ready(o).Some? && Ready(o).value.status == IsTrue && o.status.observedGeneration == o.generation
            && forall a :: a in w.acks ==> !Asks(a.request, o.spec)
    ensures !Quiet(w.keys[K])
  {
    MisreportedIsReachable();
    w := Put(PostedA(), Misreported());
    hide Reachable;
    assert Live(Misreported().slot) == Some(ThirdVersion());
    RequestIdentifies(Spec("a"), Spec("b"));
    RequestAsks(Spec("b"), RequestOf(Spec("a")));
    SetStatusConditionMeaning([], Condition(READY, IsTrue, "Registered", RegisteredAs(1, 0), 2, 0), 0, "");
  }

  // ----- an orphan -----

  /** The manager restarts before it reports the registration, and the registry moves to another URL. */
  function MovedTo(seen: nat): World
    requires seen <= 2
  {
    PostedA().(registries := map[R := Slot([None, Some(RegistryAt("u1")), Some(RegistryAt("u2"))], seen)])
  }

  function Restarted(): KeyState {
    Posted().(dirty := true, pc := Idle)
  }

  lemma RestartedIsReachable()
    ensures Reachable(Put(PostedA(), Restarted()))
  {
    PostedIsReachable();
    hide Reachable;
    KeyStep(PostedA(), Posted(), Action.Restart, Restarted());
  }

  lemma MoveEffect()
    ensures var w := Put(PostedA(), Restarted());
            && Apply(w, EditRegistry(R, Some(RegistryAt("u2")))) == Put(MovedTo(1), Restarted())
            && Enabled(Put(MovedTo(1), Restarted()), DeliverRegistry(R, 2))
            && Apply(Put(MovedTo(1), Restarted()), DeliverRegistry(R, 2)) == Put(MovedTo(2), Restarted())
  {
    var w := Put(PostedA(), Restarted());
    assert Append(w.registries[R], Some(RegistryAt("u2"))).hist ==
           [None, Some(RegistryAt("u1")), Some(RegistryAt("u2"))];
    assert w.registries[R := Append(w.registries[R], Some(RegistryAt("u2")))] == MovedTo(1).registries;
    var w1 := Put(MovedTo(1), Restarted());
    assert w1.registries[R := AdvanceTo(w1.registries[R], 2)] == MovedTo(2).registries;
    assert Wake(w1, R) == map[K := Restarted()];
  }

  lemma MovedIsReachable()
    ensures Reachable(Put(MovedTo(2), Restarted()))
  {
    RestartedIsReachable();
    MoveEffect();
    var w := Put(PostedA(), Restarted());
    hide Reachable;
    Extend(w, EditRegistry(R, Some(RegistryAt("u2"))));
    Extend(Put(MovedTo(1), Restarted()), DeliverRegistry(R, 2));
  }

  /** Then the Schema is deleted, and the cleanup goes to the new URL. */
  function Deleted(): Schema {
    FirstVersion(Spec("a")).(rv := 2, generation := 2, deleting := true)
  }

  function Deleting(pc: Pc): KeyState {
    KeyState(Slot([None, Some(FirstVersion(Spec("a"))), Some(Deleted())], 2), 1, Spec("a"), pc.Idle?, false, pc)
  }

  lemma DeletionIsReachable()
    ensures Reachable(Put(MovedTo(2), Deleting(Start)))
  {
    MovedIsReachable();
    hide Reachable;
    var unseen := Deleting(Idle).(slot := Slot(Deleting(Idle).slot.hist, 1));
    KeyStep(MovedTo(2), Restarted(), UserDelete(K), unseen);
    KeyStep(MovedTo(2), unseen, Action.Deliver(K, 2), Deleting(Idle));
    KeyStep(MovedTo(2), Deleting(Idle), Action.Dequeue(K), Deleting(Start));
  }

  lemma DeletingIsReachable()
    ensures Reachable(Put(MovedTo(2), Deleting(CleanupDelete(Deleted(), "u2"))))
  {
    DeletionIsReachable();
    hide Reachable;
    KeyStep(MovedTo(2), Deleting(Start), Call(K, Done), Deleting(CleanupGetRegistry(Deleted())));
    assert LookupUrl(Put(MovedTo(2), Deleting(CleanupGetRegistry(Deleted()))), R) == Some("u2");
    KeyStep(MovedTo(2), Deleting(CleanupGetRegistry(Deleted())), Call(K, Done),
      Deleting(CleanupLoadAuth(Deleted(), "u2")));
    KeyStep(MovedTo(2), Deleting(CleanupLoadAuth(Deleted(), "u2")), Call(K, Done),
      Deleting(CleanupDelete(Deleted(), "u2")));
  }

  function CleanedUp(): World {
    MovedTo(2).(remotes := PostedA().remotes["u2" := Delete(EMPTY, "orders-value")])
  }

  lemma CleanupEffect()
    ensures var w := Put(MovedTo(2), Deleting(CleanupDelete(Deleted(), "u2")));
            Enabled(w, Call(K, Done)) &&
              Apply(w, Call(K, Done)) == Put(CleanedUp(), Deleting(CleanupFinalize(Deleted(), Some("u2"))))
  {
    var w := Put(MovedTo(2), Deleting(CleanupDelete(Deleted(), "u2")));
    var w' := Apply(w, Call(K, Done));
    assert RemoteAt(w, "u2") == EMPTY;
    hide Register, Delete, RequestOf;
    assert w'.keys == map[K := Deleting(CleanupFinalize(Deleted(), Some("u2")))];
    assert w'.ledger == PostedA().ledger && w'.abandoned == {};
  }

  lemma FinalizeEffect()
    ensures var w := Put(CleanedUp(), Deleting(CleanupFinalize(Deleted(), Some("u2"))));
            && Enabled(w, Call(K, Done))
            && Live(Apply(w, Call(K, Done)).keys[K].slot).None?
            && Apply(w, Call(K, Done)).keys.Keys == {K}
            && Apply(w, Call(K, Done)).abandoned == PostedA().ledger
            && Apply(w, Call(K, Done)).ledger == PostedA().ledger
            && Apply(w, Call(K, Done)).remotes == CleanedUp().remotes
  {
    hide Register, Delete, RequestOf;
    var w := Put(CleanedUp(), Deleting(CleanupFinalize(Deleted(), Some("u2"))));
    var sent := Deleted().(finalizers := {});
    assert Deleted().finalizers - {FINALIZER} == {};
    assert ApiUpdate(w.json, w.keys[K].slot, sent) == Some(Append(w.keys[K].slot, None));
    assert RemovesFinalizer(w, K, Done);
    assert LeftBy(w.ledger, K, 0) == PostedA().ledger;
  }

  /** A run at whose end the custom resource is gone and its subject is still registered, although the
      DELETE was answered: the registry's URL was edited in between. */
  lemma UrlChangeOrphans() returns (before: World, w: World)
    ensures Reachable(before) && K in before.keys
    ensures before.keys[K].pc.CleanupFinalize? && before.keys[K].pc.cleaned == Some("u2")
    ensures Enabled(before, Call(K, Done)) && w == Apply(before, Call(K, Done))
    ensures Reachable(w) && K in w.keys && Live(w.keys[K].slot).None?
    ensures Binding("u1", "orders-value", K, 0) in w.abandoned
    ensures "orders-value" in RemoteAt(w, "u1").subjects
  {
    DeletingIsReachable();
    CleanupEffect();
    FinalizeEffect();
    hide Reachable, Apply, Enabled;
    Extend(Put(MovedTo(2), Deleting(CleanupDelete(Deleted(), "u2"))), Call(K, Done));
    before := Put(CleanedUp(), Deleting(CleanupFinalize(Deleted(), Some("u2"))));
    Extend(before, Call(K, Done));
    w := Apply(before, Call(K, Done));
  }

  // ----- a registration after the deletion was seen -----

  function Bare(): Schema {
    Schema(0, 1, 1, false, {}, Spec("a"), NO_STATUS)
  }

  function Guarded(): Schema {
    Bare().(rv := 2, finalizers := {FINALIZER})
  }

  function Doomed(): Schema {
    Guarded().(rv := 3, generation := 2, deleting := true)
  }

  function BareKey(seen: nat, dirty: bool, pc: Pc): KeyState
    requires seen <= 1
  {
    KeyState(Slot([None, Some(Bare())], seen), 1, Spec("a"), dirty, false, pc)
  }

  function DoomedKey(pc: Pc): KeyState {
    KeyState(Slot([None, Some(Bare()), Some(Guarded()), Some(Doomed())], 3), 1, Spec("a"), true, false, pc)
  }

  lemma GuardedIsReachable()
    ensures Reachable(Put(Known(R), BareKey(1, false, AddFinalizer(Bare()))))
  {
    KnownIsReachable(R);
    hide Reachable;
    KeyStep(Known(R), Empty(), UserCreate(K, Spec("a"), {}), BareKey(0, false, Idle));
    KeyStep(Known(R), BareKey(0, false, Idle), Action.Deliver(K, 1), BareKey(1, true, Idle));
    KeyStep(Known(R), BareKey(1, true, Idle), Action.Dequeue(K), BareKey(1, false, Start));
    KeyStep(Known(R), BareKey(1, false, Start), Call(K, Done), BareKey(1, false, AddFinalizer(Bare())));
  }

  lemma DoomedIsReachable()
    ensures Reachable(Put(Known(R), DoomedKey(Refetch(Bare()))))
  {
    GuardedIsReachable();
    hide Reachable;
    var guarded :=
      KeyState(Slot([None, Some(Bare()), Some(Guarded())], 1), 1, Spec("a"), false, false, Refetch(Bare()));
    assert Bare().finalizers + {FINALIZER} == {FINALIZER};
    assert [None, Some(Bare())] + [Some(Guarded())] == guarded.slot.hist;
    KeyStep(Known(R), BareKey(1, false, AddFinalizer(Bare())), Call(K, Done), guarded);
    var unseen := DoomedKey(Refetch(Bare())).(slot := Slot(DoomedKey(Idle).slot.hist, 1), dirty := false);
    KeyStep(Known(R), guarded, UserDelete(K), unseen);
    KeyStep(Known(R), unseen, Action.Deliver(K, 3), DoomedKey(Refetch(Bare())));
  }

  /** After adding the finalizer the reconcile re-fetches the object but does not look at its deletion
      mark again: it can go on to register a Schema that it has just read as being deleted. */
  lemma DeletedSchemaIsRegistered() returns (w: World)
    ensures Reachable(w) && K in w.keys && w.keys[K].pc.Post? && w.keys[K].pc.obj.deleting
  {
    DoomedIsReachable();
    hide Reachable;
    KeyStep(Known(R), DoomedKey(Refetch(Bare())), Call(K, Done), DoomedKey(GetRegistry(Doomed())));
    assert LookupUrl(Put(Known(R), DoomedKey(GetRegistry(Doomed()))), R) == Some("u1");
    KeyStep(Known(R), DoomedKey(GetRegistry(Doomed())), Call(K, Done), DoomedKey(LoadAuth(Doomed(), "u1")));
    KeyStep(Known(R), DoomedKey(LoadAuth(Doomed(), "u1")), Call(K, Done), DoomedKey(Post(Doomed(), "u1")));
    w := Put(Known(R), DoomedKey(Post(Doomed(), "u1")));
  }

  // ----- quiet, and quietly out of date -----

  lemma {:induction false} ReachableRun(w: World, run: seq<Action>)
    requires Reachable(w) && ValidRun(w, run)
    ensures Reachable(Run(w, run))
    decreases |run|
  {
    hide Reachable, Enabled, Apply;
    if run != [] {
      Extend(w, run[0]);
      ReachableRun(Apply(w, run[0]), run[1..]);
    }
  }

  /** What both ways to quiet keep. */
  ghost predicate SettledFrom(w: World, w': World, k: Key, url: string)
    requires k in w.keys && Live(w.keys[k].slot).Some?
  {
    && k in w'.keys && Live(w'.keys[k].slot).Some? && !Live(w'.keys[k].slot).value.deleting
    && Live(w'.keys[k].slot).value.spec == Live(w.keys[k].slot).value.spec
    && w'.registries == w.registries && w'.remotes.Keys == w.remotes.Keys + {url}
  }

  lemma ReconciledIsSettled(w: World, w1: World, k: Key, url: string)
    requires Queued(w, k, url) && Reconciled(w, w1, k, url)
    ensures SettledFrom(w, w1, k, url)
  {
    var o := Live(w.keys[k].slot).value;
    StoreStores(w.keys[k].slot, o.(status := StatusReconciled(RemoteAt(w, url), o, w.clock)));
    hide StatusReconciled, RemoteReconciled;
  }

  lemma CaughtUpIsReachable(w: World, k: Key)
    requires Reachable(w) && k in w.keys && !Delivered(w.keys[k].slot)
    ensures Reachable(CaughtUp(w, k))
  {
    hide Reachable;
    Extend(w, Action.Deliver(k, |w.keys[k].slot.hist| - 1));
  }

  lemma CaughtUpIsSettled(w: World, w1: World, k: Key, url: string)
    requires Queued(w, k, url) && Reconciled(w, w1, k, url) && !Delivered(w1.keys[k].slot)
    ensures SettledFrom(w, CaughtUp(w1, k), k, url)
  {
    ReconciledIsSettled(w, w1, k, url);
    OwnEventQueues(w, w1, k, url);
    hide Queued, Reconciled, CaughtUp;
  }

  /** Everything that holds once the event of the first reconcile has been delivered. */
  lemma FirstLeads(w: World, k: Key, url: string, first: seq<Action>)
    requires Reachable(w) && Queued(w, k, url) && UndisturbedReconcile(w, k, first)
    requires !Delivered(Run(w, first).keys[k].slot)
    ensures Reachable(CaughtUp(Run(w, first), k)) && Queued(CaughtUp(Run(w, first), k), k, url)
    ensures SettledFrom(w, CaughtUp(Run(w, first), k), k, url)
  {
    ReachableRun(w, first);
    ReconcileReconciles(w, k, url, first);
    hide Reachable, UndisturbedReconcile;
    CaughtUpIsReachable(Run(w, first), k);
    CaughtUpIsSettled(w, Run(w, first), k, url);
    OwnEventQueues(w, Run(w, first), k, url);
    hide CaughtUp, Queued, Reconciled;
  }

  lemma SecondBecomesQuiet(w: World, k: Key, url: string, first: seq<Action>) returns (w': World)
    requires Reachable(w) && Queued(w, k, url) && !w.keys[k].timer && UndisturbedReconcile(w, k, first)
    requires !Delivered(Run(w, first).keys[k].slot)
    ensures Reachable(w') && SettledFrom(w, w', k, url) && Quiet(w'.keys[k])
  {
    FirstLeads(w, k, url, first);
    assert RegistryOk(RemoteAt(w, url)) by { ReachableInv(w); }
    hide Reachable, Queued, RegistryOk, CaughtUp;
    var w2 := CaughtUp(Run(w, first), k);
    var second := CleanReconcile(w2, k, url);
    SecondReconcileIsSilent(w, k, url, first, second);
    ReconciledIsSettled(w2, Run(w2, second), k, url);
    assert ValidRun(w2, second);
    hide UndisturbedReconcile, Reconciled;
    ReachableRun(w2, second);
    w' := Run(w2, second);
  }

  /** After the reconcile that registers it, and the one that its own status update causes, a queued
      Schema is quiet. */
  lemma BecomesQuiet(w: World, k: Key, url: string) returns (w': World)
    requires Reachable(w) && Queued(w, k, url) && !w.keys[k].timer
    ensures Reachable(w') && SettledFrom(w, w', k, url) && Quiet(w'.keys[k])
  {
    hide Reachable;
    var first := CleanReconcile(w, k, url);
    ReconciledIsSettled(w, Run(w, first), k, url);
    ReconcileSettles(w, k, url, first);
    if Delivered(Run(w, first).keys[k].slot) {
      ReachableRun(w, first);
      w' := Run(w, first);
      hide UndisturbedReconcile, Queued, Reconciled;
    } else {
      w' := SecondBecomesQuiet(w, k, url, first);
      hide UndisturbedReconcile, Queued, Reconciled;
    }
  }

  const FAR := Key("infra", "registry")

  function FarSpec(): SchemaSpec {
    Spec("a").(registryRef := RegistryRef("registry", "infra"))
  }

  /** Outside its own namespace a quiet Schema can be out of date: its registry has moved to another URL,
      every event has been delivered, nothing is pending, and nothing has ever been registered at
      that URL. */
  lemma QuietlyOutOfDate() returns (w: World)
    ensures Reachable(w) && K in w.keys && Quiet(w.keys[K])
    ensures Live(w.keys[K].slot).Some? && !Live(w.keys[K].slot).value.deleting
    ensures var rk := Resolve(K, Live(w.keys[K].slot).value.spec.registryRef);
            && rk in w.registries && Delivered(w.registries[rk])
            && Live(w.registries[rk]).Some?
            && Live(w.registries[rk]).value.url !in w.remotes
  {
    CreatedIsReachable(FarSpec(), FAR);
    var w0 := Put(Known(FAR), Created(FarSpec()));
    assert Queued(w0, K, "u1");
    var w1 := BecomesQuiet(w0, K, "u1");
    assert SettledFrom(w0, w1, K, "u1");
    hide Reachable;
    var w2 := Apply(w1, EditRegistry(FAR, Some(RegistryAt("u2"))));
    Extend(w1, EditRegistry(FAR, Some(RegistryAt("u2"))));
    var a := DeliverRegistry(FAR, |w2.registries[FAR].hist| - 1);
    Extend(w2, a);
    w := Apply(w2, a);
    assert w.keys[K] == w1.keys[K];
  }
}
