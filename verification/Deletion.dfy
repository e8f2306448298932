/** When the operator registers for an object whose deletion it could have seen: exactly when, in every
    state and over every run. */
module Deletion {
  import opened Kube
  import opened Api
  import opened Admission
  import opened Auth
  import opened SchemaKey
  import opened SchemaKeyProofs
  import opened Cluster
  import opened ClusterProofs
  import opened CallProofs
  import opened Theorems

  /** The cache has shown object `inc` marked for deletion. */
  ghost predicate DeletionShown(ks: KeyState, inc: nat) {
    exists i :: 0 <= i <= ks.slot.seen && ks.slot.hist[i].Some? && ks.slot.hist[i].value.inc == inc &&
      ks.slot.hist[i].value.deleting
  }

  /** A reconcile for object `inc` is past its last look at the deletion mark and not yet past the
      registration. */
  predicate Underway(pc: Pc, inc: nat) {
    (pc.Refetch? || pc.GetRegistry? || pc.LoadAuth? || pc.Post?) && pc.obj.inc == inc
  }

  /** A reference in a valid specification can resolve to `rk`. */
  predicate Referable(k: Key, rk: Key) {
    rk.name != "" && (rk.namespace == k.namespace || rk.namespace != "")
  }

  /** A registry can still be found: the one referenced, or any at all while the reference has yet to be read. */
  ghost predicate Findable(w: World, k: Key)
    requires k in w.keys
  {
    match w.keys[k].pc
    case Refetch(_) => exists rk :: rk in w.registries && Referable(k, rk)
    case GetRegistry(o) => Resolve(k, o.spec.registryRef) in w.registries
    case _ => true
  }

  ghost predicate MayRegister(w: World, k: Key, inc: nat)
    requires k in w.keys
  {
    Underway(w.keys[k].pc, inc) && Findable(w, k)
  }

  // ----- one step -----

  /** A reconcile goes on to register a copy marked for deletion exactly when it is at the re-fetch
      after adding the finalizer and the cache shows the mark there. */
  lemma DeletedCopyExactly(w: World, k: Key, outcome: Outcome)
    requires Reachable(w) && Enabled(w, Call(k, outcome))
    ensures k in Apply(w, Call(k, outcome)).keys
    ensures var n := Apply(w, Call(k, outcome)).keys[k].pc;
            n.GetRegistry? && n.obj.deleting <==>
            w.keys[k].pc.Refetch? && Cached(w.keys[k].slot).Some? && Cached(w.keys[k].slot).value.deleting
  {
    CallSeen(w, k, outcome);
    UnderwaySource(w.json, w.keys[k], InputFor(w, k, outcome));
    hide Apply, Enabled, Reachable, InputFor, ApiUpdate, ApiUpdateStatus, RegisteredStatus, FailedStatus;
  }

  lemma UnderwaySource(json: string -> bool, ks: KeyState, i: Input)
    ensures var n := SchemaKey.Advance(json, ks, i).pc;
            && (n.Refetch? ==>
                  && ks.pc.AddFinalizer? && n.obj == ks.pc.obj
                  && ApiUpdate(json, ks.slot, n.obj.(finalizers := n.obj.finalizers + {FINALIZER})).Some?)
            && (n.GetRegistry? ==>
                 Cached(ks.slot) == Some(n.obj) && ((ks.pc.Start? && !n.obj.deleting) || ks.pc.Refetch?))
            && (n.LoadAuth? ==> ks.pc == GetRegistry(n.obj) && i.url == Some(n.url))
            && (n.Post? ==> ks.pc == LoadAuth(n.obj, n.url))
  {
    hide ApiUpdate, ApiUpdateStatus, RegisteredStatus, FailedStatus;
  }

  // ----- no run registers otherwise -----

  /** Seen deletions stay seen. */
  lemma SeenDeletion(json: string -> bool, ks: KeyState, inc: nat, at: nat)
    requires KeyInv(json, ks) && DeletionShown(ks, inc) && ks.slot.seen <= at < |ks.slot.hist|
    requires ks.slot.hist[at].Some? && ks.slot.hist[at].value.inc == inc
    ensures ks.slot.hist[at].value.deleting
  {
    var h := ks.slot.hist;
    var i :| 0 <= i <= ks.slot.seen && h[i].Some? && h[i].value.inc == inc && h[i].value.deleting;
    if i < at { assert Follows(h[i].value, h[at].value); }
  }

  lemma SeenIsLive(json: string -> bool, ks: KeyState, inc: nat)
    requires KeyInv(json, ks) && DeletionShown(ks, inc)
    ensures Live(ks.slot).Some? && Live(ks.slot).value.inc == inc ==> Live(ks.slot).value.deleting
  {
    var last := |ks.slot.hist| - 1;
    if ks.slot.hist[last].Some? && ks.slot.hist[last].value.inc == inc { SeenDeletion(json, ks, inc, last); }
    hide KeyInv, DeletionShown;
  }

  /** The finalizer can no longer be added to an object whose deletion has been seen. */
  lemma AddingIsTooLate(json: string -> bool, ks: KeyState, inc: nat, finalizers: set<string>)
    requires KeyInv(json, ks) && DeletionShown(ks, inc) && ks.pc.AddFinalizer? && ks.pc.obj.inc == inc
    ensures ApiUpdate(json, ks.slot, ks.pc.obj.(finalizers := finalizers)).None?
  {
    FinalizersStored(json, ks, finalizers);
    assert ThreadOk(ks);
    SeenIsLive(json, ks, inc);
    hide KeyInv, ApiUpdate, DeletionShown;
  }

  lemma ShownGrows(ks: KeyState, ks': KeyState, inc: nat)
    requires DeletionShown(ks, inc) && Grows(ks, ks')
    ensures DeletionShown(ks', inc)
  {
    var i :| 0 <= i <= ks.slot.seen && ks.slot.hist[i].Some? && ks.slot.hist[i].value.inc == inc &&
      ks.slot.hist[i].value.deleting;
    assert ks'.slot.hist[i] == ks.slot.hist[i];
  }

  /** A valid reference resolves to something referable. */
  lemma ValidIsReferable(json: string -> bool, k: Key, spec: SchemaSpec)
    requires SpecValid(json, spec)
    ensures Referable(k, Resolve(k, spec.registryRef))
  {
  }

  lemma NotFound(w: World, k: Key, o: Schema)
    ensures Resolve(k, o.spec.registryRef) !in w.registries ==> UrlFor(w, k, o).None?
  {
  }

  /** One call on the key: nothing comes to be under way. */
  lemma CallStaysBarred(w: World, k: Key, outcome: Outcome, inc: nat)
    requires k in w.keys && KeyInv(w.json, w.keys[k]) && DeletionShown(w.keys[k], inc) && !MayRegister(w, k, inc)
    ensures var n := SchemaKey.Advance(w.json, w.keys[k], InputFor(w, k, outcome)).pc;
            Underway(n, inc) ==> n.GetRegistry? && Resolve(k, n.obj.spec.registryRef) !in w.registries
  {
    var ks, i := w.keys[k], InputFor(w, k, outcome);
    var n := SchemaKey.Advance(w.json, ks, i).pc;
    UnderwaySource(w.json, ks, i);
    if Underway(n, inc) {
      match n
      case Refetch(o) =>
        AddingIsTooLate(w.json, ks, inc, o.finalizers + {FINALIZER});
      case GetRegistry(o) =>
        if ks.pc.Start? {
          SeenDeletion(w.json, ks, inc, ks.slot.seen);
        } else {
          RefetchFindsTheObject(w.json, ks);
          assert VersionOk(w.json, ks.incs, ks.slot.seen, o);
          ValidIsReferable(w.json, k, o.spec);
        }
      case LoadAuth(o, _) => NotFound(w, k, o);
      case _ =>
    }
    hide KeyInv, DeletionShown, ApiUpdate, SchemaKey.Advance, Resolve, SpecValid;
  }

  /** The deletion of `inc` has been seen, and no registration for it can come of what is under way. */
  ghost predicate Barred(w: World, k: Key, inc: nat) {
    k in w.keys && DeletionShown(w.keys[k], inc) && !MayRegister(w, k, inc)
  }

  lemma RegistriesAreFixed(w: World, a: Action)
    requires Enabled(w, a)
    ensures Apply(w, a).registries.Keys == w.registries.Keys
  {
    hide SchemaKey.Advance, RemotesAfter, LedgerAfter, AbandonedAfter, AcksAfter, Wake, MayCreate, MayUpdate;
  }

  lemma OwnCallStaysBarred(w: World, k: Key, outcome: Outcome, inc: nat)
    requires Inv(w) && Enabled(w, Call(k, outcome)) && Barred(w, k, inc)
    ensures Barred(Apply(w, Call(k, outcome)), k, inc)
  {
    KeyOf(w, k);
    CallFrame(w, k, outcome, k);
    RegistriesAreFixed(w, Call(k, outcome));
    hide Inv, KeyInv, LinkInv, Grows, Apply, Enabled, DeletionShown, SchemaKey.Advance, InputFor;
    CallStaysBarred(w, k, outcome, inc);
    ShownGrows(w.keys[k], Apply(w, Call(k, outcome)).keys[k], inc);
  }

  lemma OtherStaysBarred(w: World, a: Action, k: Key, inc: nat)
    requires Inv(w) && Enabled(w, a) && Barred(w, k, inc) && !(a.Call? && a.key == k)
    ensures Barred(Apply(w, a), k, inc)
  {
    RegistriesAreFixed(w, a);
    if a.Call? { CallFrame(w, a.key, a.outcome, k); } else { OtherFrame(w, a, k); }
    hide Inv, Grows, Apply, Enabled, DeletionShown, SchemaKey.Advance, InputFor;
    ShownGrows(w.keys[k], Apply(w, a).keys[k], inc);
  }

  lemma StepStaysBarred(w: World, a: Action, k: Key, inc: nat)
    requires Inv(w) && Enabled(w, a) && Barred(w, k, inc)
    ensures Barred(Apply(w, a), k, inc)
  {
    hide Inv, Enabled, Apply, Barred;
    if a.Call? && a.key == k {
      OwnCallStaysBarred(w, k, a.outcome, inc);
    } else {
      OtherStaysBarred(w, a, k, inc);
    }
  }

  lemma {:induction false} BarredForEver(w: World, run: seq<Action>, k: Key, inc: nat)
    requires Inv(w) && ValidRun(w, run) && Barred(w, k, inc)
    ensures Barred(Run(w, run), k, inc)
    decreases |run|
  {
    hide Inv, Barred;
    if run != [] {
      StepStaysBarred(w, run[0], k, inc);
      ApplyKeeps(w, run[0]);
      BarredForEver(Apply(w, run[0]), run[1..], k, inc);
    }
  }

  // ----- some run registers otherwise -----

  /** The next call of this key is the registration for object `inc`. */
  predicate AboutToRegister(w: World, k: Key, inc: nat) {
    k in w.keys && w.keys[k].pc.Post? && w.keys[k].pc.obj.inc == inc
  }

  ghost predicate CanRegister(w: World, k: Key, inc: nat) {
    exists run :: ValidRun(w, run) && AboutToRegister(Run(w, run), k, inc)
  }

  lemma Prepend(w: World, a: Action, k: Key, inc: nat)
    requires Enabled(w, a) && CanRegister(Apply(w, a), k, inc)
    ensures CanRegister(w, k, inc)
  {
    var run :| ValidRun(Apply(w, a), run) && AboutToRegister(Run(Apply(w, a), run), k, inc);
    assert ([a] + run)[1..] == run;
    hide Enabled, Apply, AboutToRegister;
    assert ValidRun(w, [a] + run) && Run(w, [a] + run) == Run(Apply(w, a), run);
  }

  lemma FromPost(w: World, k: Key, inc: nat)
    requires AboutToRegister(w, k, inc)
    ensures CanRegister(w, k, inc)
  {
    assert ValidRun(w, []) && Run(w, []) == w;
  }

  lemma FromLoadAuth(w: World, k: Key, inc: nat)
    requires k in w.keys && w.keys[k].pc.LoadAuth? && w.keys[k].pc.obj.inc == inc
    ensures CanRegister(w, k, inc)
  {
    CallSeen(w, k, Done);
    FromPost(Apply(w, Call(k, Done)), k, inc);
    Prepend(w, Call(k, Done), k, inc);
  }

  lemma FromFoundRegistry(w: World, k: Key, inc: nat)
    requires k in w.keys && w.keys[k].pc.GetRegistry? && w.keys[k].pc.obj.inc == inc
    requires UrlFor(w, k, w.keys[k].pc.obj).Some?
    ensures CanRegister(w, k, inc)
  {
    CallSeen(w, k, Done);
    FromLoadAuth(Apply(w, Call(k, Done)), k, inc);
    Prepend(w, Call(k, Done), k, inc);
  }

  /** Somebody creates the registry, and the cache learns of it. */
  lemma FromGetRegistry(w: World, k: Key, inc: nat)
    requires k in w.keys && w.keys[k].pc.GetRegistry? && w.keys[k].pc.obj.inc == inc
    requires Resolve(k, w.keys[k].pc.obj.spec.registryRef) in w.registries
    ensures CanRegister(w, k, inc)
  {
    var rk := Resolve(k, w.keys[k].pc.obj.spec.registryRef);
    var edit := EditRegistry(rk, Some(RegistrySpec("url", None, false, 0)));
    var w1 := Apply(w, edit);
    var deliver := DeliverRegistry(rk, |w1.registries[rk].hist| - 1);
    assert Enabled(w1, deliver);
    var w2 := Apply(w1, deliver);
    assert w2.keys[k].pc == w.keys[k].pc;
    assert Cached(w2.registries[rk]).Some?;
    hide Apply, Enabled, CanRegister;
    FromFoundRegistry(w2, k, inc);
    Prepend(w1, deliver, k, inc);
    Prepend(w, edit, k, inc);
  }

  lemma FromSeenReference(w: World, k: Key, inc: nat)
    requires k in w.keys && w.keys[k].pc.Refetch? && Cached(w.keys[k].slot).Some? &&
             Cached(w.keys[k].slot).value.inc == inc
    requires Resolve(k, Cached(w.keys[k].slot).value.spec.registryRef) in w.registries
    ensures CanRegister(w, k, inc)
  {
    CallSeen(w, k, Done);
    assert Apply(w, Call(k, Done)).registries == w.registries;
    hide CanRegister;
    FromGetRegistry(Apply(w, Call(k, Done)), k, inc);
    Prepend(w, Call(k, Done), k, inc);
  }

  /** The reference that resolves to `rk`. */
  function ReferenceTo(k: Key, rk: Key): RegistryRef {
    RegistryRef(rk.name, if rk.namespace == k.namespace then "" else rk.namespace)
  }

  /** A user moves the reference to a registry that exists, and the cache learns of it. */
  lemma FromRefetch(w: World, k: Key, inc: nat, rk: Key)
    requires Reachable(w) && k in w.keys && w.keys[k].pc.Refetch? && w.keys[k].pc.obj.inc == inc
    requires rk in w.registries && Referable(k, rk)
    ensures CanRegister(w, k, inc)
  {
    InvAt(w, k);
    RefetchFindsTheObject(w.json, w.keys[k]);
    LiveIsOk(w.json, w.keys[k]);
    assert ThreadOk(w.keys[k]);
    var l := Live(w.keys[k].slot).value;
    var spec := l.spec.(registryRef := ReferenceTo(k, rk));
    var update := UserUpdate(k, spec, l.finalizers);
    assert SpecValid(w.json, spec);
    hide KeyInv, LinkInv, Reachable, SpecValid, ThreadOk;
    assert Enabled(w, update);
    var w1 := Apply(w, update);
    UpdateShows(w.keys[k], spec);
    assert w1.keys[k] == SchemaKey.Update(w.keys[k], spec, l.finalizers) && w1.registries == w.registries;
    hide Apply, Enabled, CanRegister, SchemaKey.Update;
    FromNewReference(w1, k, inc, rk);
    Prepend(w, update, k, inc);
  }

  lemma UpdateShows(ks: KeyState, spec: SchemaSpec)
    requires Live(ks.slot).Some? && FINALIZER in Live(ks.slot).value.finalizers
    ensures var l := Live(ks.slot).value;
            var n := SchemaKey.Update(ks, spec, l.finalizers);
            n.pc == ks.pc && Live(n.slot).Some? && Live(n.slot).value.inc == l.inc && Live(n.slot).value.spec == spec
  {
  }

  lemma FromNewReference(w: World, k: Key, inc: nat, rk: Key)
    requires k in w.keys && w.keys[k].pc.Refetch? && rk in w.registries && Referable(k, rk)
    requires Live(w.keys[k].slot).Some? && Live(w.keys[k].slot).value.inc == inc
    requires Live(w.keys[k].slot).value.spec.registryRef == ReferenceTo(k, rk)
    ensures CanRegister(w, k, inc)
  {
    if Delivered(w.keys[k].slot) {
      FromSeenReference(w, k, inc);
    } else {
      var deliver := Action.Deliver(k, |w.keys[k].slot.hist| - 1);
      assert Enabled(w, deliver);
      var w1 := Apply(w, deliver);
      assert w1.keys[k].pc == w.keys[k].pc && w1.registries == w.registries &&
             Cached(w1.keys[k].slot) == Live(w.keys[k].slot);
      hide Apply, Enabled, CanRegister;
      FromSeenReference(w1, k, inc);
      Prepend(w, deliver, k, inc);
    }
  }

  // ----- exactly when -----

  lemma WhenUnderway(w: World, k: Key, inc: nat)
    requires Reachable(w) && k in w.keys && MayRegister(w, k, inc)
    ensures CanRegister(w, k, inc)
  {
    match w.keys[k].pc
    case Post(_, _) => hide Reachable, CanRegister, Referable; FromPost(w, k, inc);
    case LoadAuth(_, _) => hide Reachable, CanRegister, Referable; FromLoadAuth(w, k, inc);
    case GetRegistry(_) => hide Reachable, CanRegister, Referable; FromGetRegistry(w, k, inc);
    case Refetch(_) =>
      hide CanRegister, Reachable;
      var rk :| rk in w.registries && Referable(k, rk);
      FromRefetch(w, k, inc, rk);
  }

  /** Once the cache has shown the deletion of an object, some run still registers for it if and only
      if a reconcile for it is between adding the finalizer and the registration, and a registry
      can still be found. */
  lemma RegistersDeletedExactly(w: World, k: Key, inc: nat)
    requires Reachable(w) && k in w.keys && DeletionShown(w.keys[k], inc)
    ensures CanRegister(w, k, inc) <==> MayRegister(w, k, inc)
  {
    if MayRegister(w, k, inc) {
      WhenUnderway(w, k, inc);
    } else if CanRegister(w, k, inc) {
      var run :| ValidRun(w, run) && AboutToRegister(Run(w, run), k, inc);
      ReachableInv(w);
      hide Inv, DeletionShown, Reachable, Findable;
      BarredForEver(w, run, k, inc);
    }
    hide Reachable, DeletionShown, MayRegister, CanRegister;
  }

  /** Once a reconcile has taken the deletion branch for an object, no later step of any run
      registers anything for that object. */
  lemma NoRegistrationAfterCleanupBegan(w: World, run: seq<Action>, k: Key)
    requires Reachable(w) && k in w.keys && Cleaning(w.keys[k].pc) && ValidRun(w, run)
    ensures !AboutToRegister(Run(w, run), k, w.keys[k].pc.obj.inc)
  {
    InvAt(w, k);
    var ks := w.keys[k];
    assert ks.slot.hist[ks.pc.obj.rv] == Some(ks.pc.obj) && ks.pc.obj.deleting by { assert ThreadOk(ks); }
    ReachableInv(w);
    hide KeyInv, LinkInv, Inv, Reachable, Findable;
    BarredForEver(w, run, k, ks.pc.obj.inc);
  }
}
