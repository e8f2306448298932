/** The version history of a Schema, step by step: every stored version is a creation, an edit, or a
    report of one of two kinds, and nothing else ever touches a status. */
module Versions {
  import opened Kube
  import opened Api
  import opened Admission
  import opened SchemaKey
  import opened SchemaKeyProofs
  import opened Cluster
  import opened ClusterProofs
  import opened CallProofs
  import opened Theorems
  import Ledger

  /** A failure is reported by the Ready condition alone: ids, version, time and observed generation stay. */
  ghost predicate FailureReport(a: Schema, b: Schema) {
    && b == a.(rv := b.rv, status := a.status.(conditions := b.status.conditions))
    && OthersUntouched(a.status.conditions, b.status.conditions, READY)
    && Ready(b).Some? && Ready(b).value.status == IsFalse
    && (Ready(b).value.reason == "ClientBuildFailed" || Ready(b).value.reason == "RegistrationFailed")
    && Ready(b).value.observedGeneration == a.generation
  }

  /** A success is reported in full. */
  ghost predicate SuccessReport(a: Schema, b: Schema) {
    && b == a.(rv := b.rv, status := b.status)
    && OthersUntouched(a.status.conditions, b.status.conditions, READY)
    && b.status.schemaId.Some? && b.status.version.Some? && b.status.registeredAt.Some?
    && b.status.observedGeneration == a.generation
    && Ready(b).Some?
    && Ready(b).value.(lastTransition := 0) ==
       Condition(READY, IsTrue, "Registered", RegisteredAs(b.status.schemaId.value, b.status.version.value),
         a.generation, 0)
  }

  /** An edit of specification, finalizers or deletion mark keeps the status, and the generation counts the
      changes of specification and mark. */
  ghost predicate Edit(a: Schema, b: Schema) {
    && b.inc == a.inc && b.status == a.status
    && (a.deleting ==> b.deleting)
    && b.generation == if b.spec == a.spec && b.deleting == a.deleting then a.generation else a.generation + 1
  }

  ghost predicate Step(a: Option<Schema>, b: Option<Schema>) {
    match b
    case None => true
    case Some(n) =>
      if a.None? || a.value.inc != n.inc then n.generation == 1 && !n.deleting && n.status == NO_STATUS
      else Edit(a.value, n) || FailureReport(a.value, n) || SuccessReport(a.value, n)
  }

  ghost predicate Explained(h: seq<Option<Schema>>) {
    && |h| > 0 && h[0].None?
    && forall i :: 0 < i < |h| ==> Step(h[i - 1], h[i])
  }

  /** The reasons that a reconcile can have for its report. */
  predicate ReasonOk(pc: Pc) {
    pc.FailFetch? || pc.FailWrite? ==> pc.reason == "ClientBuildFailed" || pc.reason == "RegistrationFailed"
  }

  ghost predicate KeyExplained(ks: KeyState) {
    Explained(ks.slot.hist) && ReasonOk(ks.pc)
  }

  lemma AppendExplained(h: seq<Option<Schema>>, v: Option<Schema>)
    requires Explained(h) && Step(h[|h| - 1], v)
    ensures Explained(h + [v])
  {
    var n := h + [v];
    forall i | 0 < i < |n| ensures Step(n[i - 1], n[i]) {
      assert i < |h| ==> Step(h[i - 1], h[i]);
    }
    hide Step;
  }

  lemma StoreExplained(s: Slot<Schema>, o: Schema)
    requires Explained(s.hist) && Live(s).Some?
    requires Step(Live(s), Some(o.(rv := |s.hist|)))
    ensures Explained(Store(s, o).hist)
  {
    AppendExplained(s.hist, Some(o.(rv := |s.hist|)));
    AppendExplained(s.hist, None);
    hide Explained;
  }

  lemma FailureIsReport(o: Schema, reason: string, message: Message, now: nat, rv: nat)
    requires reason == "ClientBuildFailed" || reason == "RegistrationFailed"
    ensures FailureReport(o, o.(rv := rv, status := FailedStatus(o, reason, message, now)))
  {
    var c := Condition(READY, IsFalse, reason, message, o.generation, now);
    SetStatusConditionMeaning(o.status.conditions, c, now, "");
    SetStatusConditionKeepsOthers(o.status.conditions, c, now);
    hide FindCondition, CountKind, SetStatusCondition, OthersUntouched;
  }

  lemma SuccessIsReport(o: Schema, id: nat, version: nat, now: nat, rv: nat)
    ensures SuccessReport(o, o.(rv := rv, status := RegisteredStatus(o, id, version, now)))
  {
    var c := Condition(READY, IsTrue, "Registered", RegisteredAs(id, version), o.generation, now);
    SetStatusConditionMeaning(o.status.conditions, c, now, "");
    SetStatusConditionKeepsOthers(o.status.conditions, c, now);
    hide FindCondition, CountKind, SetStatusCondition, OthersUntouched;
  }

  lemma UserExplained(json: string -> bool, ks: KeyState)
    requires Explained(ks.slot.hist)
    ensures forall spec, fs :: MayUpdate(json, ks, spec, fs) ==> Explained(Update(ks, spec, fs).slot.hist)
    ensures Live(ks.slot).Some? ==> Explained(DeleteByUser(ks).slot.hist)
    ensures forall spec, fs :: MayCreate(json, ks, spec) ==> Explained(Create(ks, spec, fs).slot.hist)
  {
    forall spec, fs | MayUpdate(json, ks, spec, fs) ensures Explained(Update(ks, spec, fs).slot.hist) {
      var l := Live(ks.slot).value;
      var n :=
        l.(spec := spec, finalizers := fs, generation := if spec == l.spec then l.generation else l.generation + 1);
      assert Edit(l, n.(rv := |ks.slot.hist|));
      StoreExplained(ks.slot, n);
    }
    if Live(ks.slot).Some? && !Live(ks.slot).value.deleting {
      var l := Live(ks.slot).value;
      var n := l.(deleting := true, generation := l.generation + 1);
      assert Edit(l, n.(rv := |ks.slot.hist|));
      StoreExplained(ks.slot, n);
    }
    forall spec, fs | MayCreate(json, ks, spec) ensures Explained(Create(ks, spec, fs).slot.hist) {
      AppendExplained(ks.slot.hist, Live(Create(ks, spec, fs).slot));
    }
    hide Explained, Store;
  }

  lemma AdvanceReason(json: string -> bool, ks: KeyState, i: Input)
    requires ReasonOk(ks.pc)
    ensures ReasonOk(SchemaKey.Advance(json, ks, i).pc)
  {
    hide ApiUpdate, ApiUpdateStatus, RegisteredStatus, FailedStatus;
  }

  lemma AdvanceExplained(json: string -> bool, ks: KeyState, i: Input)
    requires KeyInv(json, ks) && KeyExplained(ks)
    ensures KeyExplained(SchemaKey.Advance(json, ks, i))
  {
    var ks' := SchemaKey.Advance(json, ks, i);
    AdvanceSlot(json, ks, i);
    AdvanceReason(json, ks, i);
    hide RegisteredStatus, FailedStatus, ApiUpdate, SchemaKey.Advance;
    if ks'.slot != ks.slot {
      CallExplained(json, ks, ks'.slot);
    }
    hide KeyInv, Explained;
  }

  /** What each of the four writing calls stores. */
  lemma CallExplained(json: string -> bool, ks: KeyState, s: Slot<Schema>)
    requires KeyInv(json, ks) && KeyExplained(ks) && HasObj(ks.pc)
    ensures ks.pc.AddFinalizer? &&
            ApiUpdate(json, ks.slot, ks.pc.obj.(finalizers := ks.pc.obj.finalizers + {FINALIZER})) == Some(s) ==>
              Explained(s.hist)
    ensures ks.pc.CleanupFinalize? &&
            ApiUpdate(json, ks.slot, ks.pc.obj.(finalizers := ks.pc.obj.finalizers - {FINALIZER})) == Some(s) ==>
              Explained(s.hist)
    ensures ks.pc.StatusWrite? &&
            ApiUpdateStatus(ks.slot,
              ks.pc.obj.(status := RegisteredStatus(ks.pc.obj, ks.pc.id, ks.pc.version, ks.pc.now))) == Some(s) ==>
              Explained(s.hist)
    ensures ks.pc.FailWrite? &&
            ApiUpdateStatus(ks.slot,
              ks.pc.obj.(status := FailedStatus(ks.pc.obj, ks.pc.reason, ks.pc.message, ks.pc.now))) == Some(s) ==>
              Explained(s.hist)
  {
    var o := ks.pc.obj;
    if Current(ks.slot, o) {
      CurrentMeansSame(json, ks);
      hide KeyInv, Store, Explained;
      match ks.pc
      case AddFinalizer(_) =>
        assert Edit(o, o.(finalizers := o.finalizers + {FINALIZER}, rv := |ks.slot.hist|));
        StoreExplained(ks.slot, o.(finalizers := o.finalizers + {FINALIZER}));
      case CleanupFinalize(_, _) =>
        assert Edit(o, o.(finalizers := o.finalizers - {FINALIZER}, rv := |ks.slot.hist|));
        StoreExplained(ks.slot, o.(finalizers := o.finalizers - {FINALIZER}));
      case StatusWrite(_, _, id, version, _, now) =>
        SuccessIsReport(o, id, version, now, |ks.slot.hist|);
        hide RegisteredStatus, SuccessReport, FailureReport, Edit;
        StoreExplained(ks.slot, o.(status := RegisteredStatus(o, id, version, now)));
      case FailWrite(_, reason, message, now) =>
        FailureIsReport(o, reason, message, now, |ks.slot.hist|);
        hide FailedStatus, SuccessReport, FailureReport, Edit;
        StoreExplained(ks.slot, o.(status := FailedStatus(o, reason, message, now)));
      case _ =>
    }
    hide KeyInv, Store, Explained;
  }

  // ----- every run -----

  ghost predicate AllExplained(w: World) {
    forall k :: k in w.keys ==> KeyExplained(w.keys[k])
  }

  lemma OtherStaysExplained(w: World, a: Action, k: Key)
    requires Enabled(w, a) && !a.Call? && k in w.keys && KeyExplained(w.keys[k])
    ensures k in Apply(w, a).keys && KeyExplained(Apply(w, a).keys[k])
  {
    UserExplained(w.json, w.keys[k]);
    hide Explained, MayCreate, MayUpdate, SchemaKey.DeleteByUser, WokenBy, Without, Store;
  }

  lemma CallStaysExplained(w: World, l: Key, outcome: Outcome, k: Key)
    requires Inv(w) && Enabled(w, Call(l, outcome)) && k in w.keys && KeyExplained(w.keys[k])
    ensures k in Apply(w, Call(l, outcome)).keys && KeyExplained(Apply(w, Call(l, outcome)).keys[k])
  {
    CallFrame(w, l, outcome, k);
    KeyOf(w, k);
    hide Inv, KeyInv, LinkInv, Grows, Apply, Enabled, KeyExplained, SchemaKey.Advance, InputFor;
    if l == k { AdvanceExplained(w.json, w.keys[k], InputFor(w, k, outcome)); }
  }

  lemma StepStaysExplained(w: World, a: Action)
    requires Inv(w) && Enabled(w, a) && AllExplained(w)
    ensures AllExplained(Apply(w, a))
  {
    Ledger.KeysAreFixed(w, a);
    forall k | k in Apply(w, a).keys ensures KeyExplained(Apply(w, a).keys[k]) {
      hide Inv, Enabled, Apply, KeyExplained;
      if a.Call? { CallStaysExplained(w, a.key, a.outcome, k); } else { OtherStaysExplained(w, a, k); }
    }
    hide Inv, Enabled, Apply, KeyExplained;
  }

  lemma {:induction false} RunStaysExplained(w: World, run: seq<Action>)
    requires Inv(w) && AllExplained(w) && ValidRun(w, run)
    ensures AllExplained(Run(w, run))
    decreases |run|
  {
    hide Inv, AllExplained;
    if run != [] {
      StepStaysExplained(w, run[0]);
      ApplyKeeps(w, run[0]);
      RunStaysExplained(Apply(w, run[0]), run[1..]);
    }
  }

  lemma ReachableExplained(w: World, k: Key)
    requires Reachable(w) && k in w.keys
    ensures KeyExplained(w.keys[k])
  {
    var start, run :| Initial(start) && Reaches(start, run, w);
    InitialInv(start);
    InitialIsExplained(start);
    hide Inv, Initial, KeyExplained;
    RunStaysExplained(start, run);
  }

  /** In every reachable state, each version ever stored of any object is explained by the one before it:
      a creation with an empty status, an edit that leaves the status alone, a failure that changes
      nothing but the Ready condition, or a success reported in full. */
  lemma EveryVersionIsExplained(w: World, k: Key, i: nat)
    requires Reachable(w) && k in w.keys && 0 < i < |w.keys[k].slot.hist|
    ensures Step(w.keys[k].slot.hist[i - 1], w.keys[k].slot.hist[i])
  {
    ReachableExplained(w, k);
    hide Reachable, Step;
  }

  lemma InitialIsExplained(w: World)
    requires Initial(w)
    ensures AllExplained(w)
  {
    forall k | k in w.keys ensures KeyExplained(w.keys[k]) {
      assert Untouched(w.keys[k]);
    }
  }

  /** No failure ever changes what is known about a registration: from one version to the next the id,
      the version, the time and the observed generation change only in a version whose Ready is True. */
  lemma FailuresKeepTheReport(w: World, k: Key, i: nat)
    requires Reachable(w) && k in w.keys && 0 < i < |w.keys[k].slot.hist|
    requires var h := w.keys[k].slot.hist; h[i - 1].Some? && h[i].Some? && h[i - 1].value.inc == h[i].value.inc
    requires var n := w.keys[k].slot.hist[i].value; Ready(n).None? || Ready(n).value.status != IsTrue
    ensures var h := w.keys[k].slot.hist;
            h[i].value.status == h[i - 1].value.status.(conditions := h[i].value.status.conditions)
    ensures var h := w.keys[k].slot.hist;
            OthersUntouched(h[i - 1].value.status.conditions, h[i].value.status.conditions, READY)
  {
    EveryVersionIsExplained(w, k, i);
    hide Reachable;
  }
}
