/** Every action on a key keeps `KeyInv`, whatever the rest of the system answers. */
module SchemaKeyProofs {
  import opened Kube
  import opened Api
  import opened Admission
  import opened SchemaKey

  // ----- statuses -----

  lemma RegisteredStatusFollows(o: Schema, id: nat, version: nat, now: nat)
    requires ChainOk(o)
    ensures var n := o.(status := RegisteredStatus(o, id, version, now));
            && ChainOk(n) && Follows(o, n)
            && Ready(n).Some? && Ready(n).value.status == IsTrue && Ready(n).value.message == RegisteredAs(id, version)
            && Ready(n).value.reason == "Registered" && ReadyGeneration(n) == o.generation
  {
    SetStatusConditionMeaning(o.status.conditions,
      Condition(READY, IsTrue, "Registered", RegisteredAs(id, version), o.generation, now), now, "");
  }

  lemma FailedStatusFollows(o: Schema, reason: string, message: Message, now: nat)
    requires ChainOk(o)
    ensures var n := o.(status := FailedStatus(o, reason, message, now));
            && ChainOk(n) && Follows(o, n)
            && Ready(n).Some? && Ready(n).value.status == IsFalse && ReadyGeneration(n) == o.generation
            && n.status.schemaId == o.status.schemaId && n.status.version == o.status.version
            && n.status.registeredAt == o.status.registeredAt
  {
    SetStatusConditionMeaning(o.status.conditions, Condition(READY, IsFalse, reason, message, o.generation, now), now,
      "");
  }

  // ----- users -----

  lemma CreateKeeps(json: string -> bool, ks: KeyState, spec: SchemaSpec, finalizers: set<string>)
    requires KeyInv(json, ks) && MayCreate(json, ks, spec)
    ensures KeyInv(json, Create(ks, spec, finalizers))
  {
    var ks' := Create(ks, spec, finalizers);
    var o := ks'.slot.hist[|ks.slot.hist|].value;
    AppendNew(json, ks.incs, ks.slot.hist, o);
    assert forall i :: 0 <= i < |ks.slot.hist| ==> ks'.slot.hist[i] == ks.slot.hist[i];
    assert !Registering(ks.pc);
  }

  /** A store by somebody else while a reconcile may be in flight. */
  lemma ForeignStoreKeeps(json: string -> bool, ks: KeyState, o: Schema, intent: SchemaSpec)
    requires Live(ks.slot).Some? && o.inc == Live(ks.slot).value.inc && o.spec == intent
    requires FINALIZER in Live(ks.slot).value.finalizers ==> FINALIZER in o.finalizers
    ensures KeyInv(json, ks) && Follows(Live(ks.slot).value, o) &&
            VersionOk(json, ks.incs, |ks.slot.hist|, o.(rv := |ks.slot.hist|)) ==>
              KeyInv(json, ks.(slot := Store(ks.slot, o), intent := intent))
  {
    if KeyInv(json, ks) && Follows(Live(ks.slot).value, o) &&
      VersionOk(json, ks.incs, |ks.slot.hist|, o.(rv := |ks.slot.hist|)) {
      StoreKeeps(json, ks.incs, ks.slot, o);
      var s' := Store(ks.slot, o);
      assert forall i :: 0 <= i < |ks.slot.hist| ==> s'.hist[i] == ks.slot.hist[i];
    }
  }

  /** The live version is well formed and follows every cached copy of the same object. */
  lemma LiveIsOk(json: string -> bool, ks: KeyState)
    requires KeyInv(json, ks) && Live(ks.slot).Some?
    ensures VersionOk(json, ks.incs, |ks.slot.hist| - 1, Live(ks.slot).value)
  {
  }

  /** A later version that differs in specification, finalizers, deletion mark and generation only. */
  lemma EditFollows(json: string -> bool, incs: nat, at: nat, to: nat, l: Schema, n: Schema)
    requires VersionOk(json, incs, at, l) && SpecValid(json, n.spec)
    requires n.inc == l.inc && n.status == l.status && l.generation <= n.generation
    requires n.generation == l.generation ==> n.spec == l.spec && n.deleting == l.deleting
    requires l.deleting ==> n.deleting
    requires n.spec.subject == l.spec.subject && n.spec.schemaType == l.spec.schemaType
    ensures VersionOk(json, incs, to, n.(rv := to)) && Follows(l, n)
  {
    hide SpecValid, FindCondition, CountKind;
  }

  lemma UpdateKeeps(json: string -> bool, ks: KeyState, spec: SchemaSpec, finalizers: set<string>)
    requires KeyInv(json, ks) && MayUpdate(json, ks, spec, finalizers)
    ensures KeyInv(json, Update(ks, spec, finalizers))
  {
    var l := Live(ks.slot).value;
    var n := l.(spec := spec, finalizers := finalizers,
                generation := if spec == l.spec then l.generation else l.generation + 1);
    LiveIsOk(json, ks);
    hide KeyInv, VersionOk, SpecValid, Follows, Store;
    EditFollows(json, ks.incs, |ks.slot.hist| - 1, |ks.slot.hist|, l, n);
    ForeignStoreKeeps(json, ks, n, spec);
  }

  lemma DeleteKeeps(json: string -> bool, ks: KeyState)
    requires KeyInv(json, ks) && Live(ks.slot).Some?
    ensures KeyInv(json, DeleteByUser(ks))
  {
    var l := Live(ks.slot).value;
    var n := l.(deleting := true, generation := l.generation + 1);
    LiveIsOk(json, ks);
    assert IntentOk(ks) && SpecValid(json, l.spec);
    hide KeyInv, VersionOk, SpecValid, Follows, Store;
    EditFollows(json, ks.incs, |ks.slot.hist| - 1, |ks.slot.hist|, l, n);
    if !l.deleting {
      ForeignStoreKeeps(json, ks, n, ks.intent);
    }
  }

  // ----- workqueue and informer -----

  lemma DeliverKeeps(json: string -> bool, ks: KeyState, to: nat)
    requires KeyInv(json, ks) && ks.slot.seen <= to < |ks.slot.hist|
    ensures KeyInv(json, Deliver(ks, to))
  {
    hide HistoryOk;
  }

  lemma MarkKeeps(json: string -> bool, ks: KeyState)
    ensures KeyInv(json, ks) ==> KeyInv(json, Mark(ks)) && KeyInv(json, Fire(ks)) && KeyInv(json, Restart(ks))
    ensures KeyInv(json, ks) && ks.pc.Idle? ==> KeyInv(json, Dequeue(ks))
  {
    hide HistoryOk, FinalizerOk;
  }

  lemma FinishKeeps(json: string -> bool, ks: KeyState, retry: bool)
    requires KeyInv(json, ks)
    ensures KeyInv(json, Finish(ks, retry))
  {
    hide HistoryOk, FinalizerOk;
  }

  /** A write either leaves the key as it was or stores its result; then the reconcile may end. */
  lemma WrittenKeeps(json: string -> bool, ks: KeyState, stored: Option<Slot<Schema>>, outcome: Outcome, retry: bool)
    requires KeyInv(json, ks)
    requires stored.Some? ==> KeyInv(json, ks.(slot := stored.value))
    ensures KeyInv(json, Finish(Written(ks, stored, outcome).0, retry))
  {
    var ks' := Written(ks, stored, outcome).0;
    assert ks' == ks || (stored.Some? && ks' == ks.(slot := stored.value));
    hide KeyInv;
    FinishKeeps(json, ks', retry);
  }

  // ----- the reconcile -----

  /** A re-fetch during registration finds the same object, alive. */
  lemma RefetchFindsTheObject(json: string -> bool, ks: KeyState)
    requires KeyInv(json, ks) && Registering(ks.pc)
    ensures Cached(ks.slot).Some? && Cached(ks.slot).value.inc == ks.pc.obj.inc
    ensures Cached(ks.slot).value.spec.subject == ks.pc.obj.spec.subject
    ensures Cached(ks.slot).value.rv == ks.slot.seen
    ensures Live(ks.slot).Some? && Live(ks.slot).value.inc == ks.pc.obj.inc
    ensures Live(ks.slot).value.spec.subject == ks.pc.obj.spec.subject
  {
    var h, o := ks.slot.hist, ks.pc.obj;
    SameObjectBetween(json, ks.incs, h, o.rv, ks.slot.seen, |h| - 1);
    SameObjectBetween(json, ks.incs, h, o.rv, |h| - 1, |h| - 1);
  }

  /** A write with a current version concerns the object the reconcile holds. */
  lemma CurrentMeansSame(json: string -> bool, ks: KeyState)
    requires KeyInv(json, ks) && HasObj(ks.pc) && Current(ks.slot, ks.pc.obj)
    ensures Live(ks.slot) == Some(ks.pc.obj) && Delivered(ks.slot)
  {
    assert VersionOk(json, ks.incs, |ks.slot.hist| - 1, Live(ks.slot).value);
  }

  /** An accepted change of finalizers stores the reconcile's own copy with that change. */
  lemma FinalizersStored(json: string -> bool, ks: KeyState, finalizers: set<string>)
    requires KeyInv(json, ks) && HasObj(ks.pc)
    ensures var sent := ks.pc.obj.(finalizers := finalizers);
            var stored := ApiUpdate(json, ks.slot, sent);
            stored.Some? ==>
                Live(ks.slot) == Some(ks.pc.obj) && Delivered(ks.slot) && stored.value == Store(ks.slot, sent)
  {
    if Current(ks.slot, ks.pc.obj) { CurrentMeansSame(json, ks); }
    hide KeyInv, AdmitsUpdate, Store;
  }

  lemma CleanupFinalizeKeeps(json: string -> bool, ks: KeyState, i: Input)
    requires KeyInv(json, ks) && ks.pc.CleanupFinalize?
    ensures KeyInv(json, Advance(json, ks, i))
  {
    hide KeyInv, ApiUpdate, Store;
    var sent := ks.pc.obj.(finalizers := ks.pc.obj.finalizers - {FINALIZER});
    var stored := ApiUpdate(json, ks.slot, sent);
    FinalizersStored(json, ks, sent.finalizers);
    if stored.Some? { FinalizerRemoved(json, ks, sent); }
    WrittenKeeps(json, ks, stored, i.outcome, !Written(ks, stored, i.outcome).1);
  }

  /** Removing the finalizer is safe because the cache is then exactly at the live, deleting version. */
  lemma FinalizerRemoved(json: string -> bool, ks: KeyState, sent: Schema)
    requires KeyInv(json, ks) && ks.pc.CleanupFinalize? && Live(ks.slot) == Some(ks.pc.obj) && Delivered(ks.slot)
    requires sent == ks.pc.obj.(finalizers := ks.pc.obj.finalizers - {FINALIZER})
    ensures KeyInv(json, ks.(slot := Store(ks.slot, sent)))
  {
    var h, s' := ks.slot.hist, Store(ks.slot, sent);
    LiveIsOk(json, ks);
    DeletingShieldsFinalizer(ks.slot, s');
    hide FinalizerOk, FindCondition, CountKind;
    if sent.finalizers == {} {
      AppendNothing(json, ks.incs, h);
    } else {
      assert VersionOk(json, ks.incs, |h|, sent.(rv := |h|));
      AppendVersion(json, ks.incs, h, sent.(rv := |h|));
    }
    hide HistoryOk;
  }

  lemma DeletingShieldsFinalizer(s: Slot<Schema>, s': Slot<Schema>)
    requires Delivered(s) && Live(s).Some? && Live(s).value.deleting && s'.seen == s.seen
    requires s' == Append(s, None) || (Live(s').Some? && Live(s').value.deleting && s' == Append(s, Live(s')))
    ensures FinalizerOk(s')
  {
  }

  lemma AddFinalizerKeeps(json: string -> bool, ks: KeyState, i: Input)
    requires KeyInv(json, ks) && ks.pc.AddFinalizer?
    ensures KeyInv(json, Advance(json, ks, i))
  {
    hide KeyInv, ApiUpdate, Store;
    var sent := ks.pc.obj.(finalizers := ks.pc.obj.finalizers + {FINALIZER});
    var stored := ApiUpdate(json, ks.slot, sent);
    FinalizersStored(json, ks, sent.finalizers);
    if stored.Some? { FinalizerAdded(json, ks, sent); }
    WrittenKeeps(json, ks, stored, i.outcome, true);
  }

  lemma FinalizerAdded(json: string -> bool, ks: KeyState, sent: Schema)
    requires KeyInv(json, ks) && ks.pc.AddFinalizer? && Live(ks.slot) == Some(ks.pc.obj)
    requires sent == ks.pc.obj.(finalizers := ks.pc.obj.finalizers + {FINALIZER})
    ensures var ks' := ks.(slot := Store(ks.slot, sent));
            KeyInv(json, ks') && KeyInv(json, ks'.(pc := Refetch(ks.pc.obj)))
  {
    LiveIsOk(json, ks);
    assert VersionOk(json, ks.incs, |ks.slot.hist|, sent.(rv := |ks.slot.hist|)) by { hide FindCondition, CountKind; }
    assert Follows(ks.pc.obj, sent) by { hide FindCondition; }
    ForeignStoreKeeps(json, ks, sent, ks.intent);
    StoreKeeps(json, ks.incs, ks.slot, sent);
    hide HistoryOk, FinalizerOk, ChainOk, Follows;
  }

  lemma StatusWriteKeeps(json: string -> bool, ks: KeyState, status: Status)
    requires KeyInv(json, ks) && Registering(ks.pc)
    requires var n := ks.pc.obj.(status := status); ChainOk(n) && Follows(ks.pc.obj, n)
    ensures var stored := ApiUpdateStatus(ks.slot, ks.pc.obj.(status := status));
            stored.Some? ==> KeyInv(json, ks.(slot := stored.value))
  {
    var o := ks.pc.obj;
    if Current(ks.slot, o) {
      CurrentMeansSame(json, ks);
      LiveIsOk(json, ks);
      assert IntentOk(ks);
      hide KeyInv, SpecValid, FindCondition, CountKind;
      ForeignStoreKeeps(json, ks, o.(status := status), ks.intent);
    }
  }

  lemma FetchKeeps(json: string -> bool, ks: KeyState, i: Input)
    requires KeyInv(json, ks) && (ks.pc.Refetch? || ks.pc.StatusFetch? || ks.pc.FailFetch?)
    ensures KeyInv(json, Advance(json, ks, i))
  {
    RefetchFindsTheObject(json, ks);
    hide HistoryOk, FinalizerOk;
  }

  lemma StartKeeps(json: string -> bool, ks: KeyState, i: Input)
    requires KeyInv(json, ks) && ks.pc.Start?
    ensures KeyInv(json, Advance(json, ks, i))
  {
    if Cached(ks.slot).Some? {
      var o := Cached(ks.slot).value;
      assert VersionOk(json, ks.incs, ks.slot.seen, o);
      assert !o.deleting && FINALIZER in o.finalizers ==> HasFinalizer(Live(ks.slot), o.inc);
    }
    hide HistoryOk, FinalizerOk;
  }

  lemma StatusStepKeeps(json: string -> bool, ks: KeyState, status: Status, outcome: Outcome, retry: bool)
    requires KeyInv(json, ks) && Registering(ks.pc)
    requires var n := ks.pc.obj.(status := status); ChainOk(n) && Follows(ks.pc.obj, n)
    ensures KeyInv(json, Finish(Written(ks, ApiUpdateStatus(ks.slot, ks.pc.obj.(status := status)), outcome).0, retry))
  {
    StatusWriteKeeps(json, ks, status);
    hide KeyInv, ChainOk, Follows, ApiUpdateStatus;
    WrittenKeeps(json, ks, ApiUpdateStatus(ks.slot, ks.pc.obj.(status := status)), outcome, retry);
  }

  lemma ObjIsOk(json: string -> bool, ks: KeyState)
    requires KeyInv(json, ks) && HasObj(ks.pc)
    ensures VersionOk(json, ks.incs, ks.pc.obj.rv, ks.pc.obj)
  {
  }

  lemma StatusWriteStepKeeps(json: string -> bool, ks: KeyState, i: Input)
    requires KeyInv(json, ks) && ks.pc.StatusWrite?
    ensures KeyInv(json, Advance(json, ks, i))
  {
    var o := ks.pc.obj;
    var status := RegisteredStatus(o, ks.pc.id, ks.pc.version, ks.pc.now);
    ObjIsOk(json, ks);
    RegisteredStatusFollows(o, ks.pc.id, ks.pc.version, ks.pc.now);
    hide KeyInv, ChainOk, Follows, RegisteredStatus, ApiUpdateStatus, Written, FindCondition;
    StatusStepKeeps(json, ks, status, i.outcome,
      !Written(ks, ApiUpdateStatus(ks.slot, o.(status := status)), i.outcome).1);
  }

  lemma FailWriteStepKeeps(json: string -> bool, ks: KeyState, i: Input)
    requires KeyInv(json, ks) && ks.pc.FailWrite?
    ensures KeyInv(json, Advance(json, ks, i))
  {
    var o := ks.pc.obj;
    ObjIsOk(json, ks);
    FailedStatusFollows(o, ks.pc.reason, ks.pc.message, ks.pc.now);
    hide KeyInv, ChainOk, Follows, FailedStatus, ApiUpdateStatus, Written, FindCondition;
    StatusStepKeeps(json, ks, FailedStatus(o, ks.pc.reason, ks.pc.message, ks.pc.now), i.outcome, true);
  }

  /** Steps that only read or call out, and so keep the object. */
  lemma MoveKeeps(json: string -> bool, ks: KeyState, pc: Pc)
    requires KeyInv(json, ks) && HasObj(ks.pc) && HasObj(pc) && pc.obj == ks.pc.obj
    requires Cleaning(pc) == Cleaning(ks.pc) && Registering(pc) == Registering(ks.pc)
    requires pc.StatusWrite? ==> pc.posted == RequestOf(pc.obj.spec)
    ensures KeyInv(json, ks.(pc := pc))
  {
    hide HistoryOk, FinalizerOk;
  }

  lemma AdvanceKeeps(json: string -> bool, ks: KeyState, i: Input)
    requires KeyInv(json, ks)
    ensures KeyInv(json, Advance(json, ks, i))
  {
    hide KeyInv;
    match ks.pc
    case Idle =>
    case Start => StartKeeps(json, ks, i);
    case CleanupFinalize(_, _) => CleanupFinalizeKeeps(json, ks, i);
    case AddFinalizer(_) => AddFinalizerKeeps(json, ks, i);
    case Refetch(_) => FetchKeeps(json, ks, i);
    case StatusFetch(_, _, _, _) => FetchKeeps(json, ks, i);
    case FailFetch(_, _, _) => FetchKeeps(json, ks, i);
    case StatusWrite(_, _, _, _, _, _) => StatusWriteStepKeeps(json, ks, i);
    case FailWrite(_, _, _, _) => FailWriteStepKeeps(json, ks, i);
    case CleanupDelete(_, _) =>
      FinishKeeps(json, ks, true);
      if i.outcome.Done? { MoveKeeps(json, ks, Advance(json, ks, i).pc); }
    case _ => MoveKeeps(json, ks, Advance(json, ks, i).pc);
  }

  // ----- what other components may rely on -----

  /** Histories and caches only ever move forward. */
  ghost predicate Grows(ks: KeyState, ks': KeyState) {
    ks.slot.hist <= ks'.slot.hist && ks.slot.seen <= ks'.slot.seen
  }

  /** Whoever carries the finalizer still does, under the same subject. */
  ghost predicate KeepsBound(ks: KeyState, ks': KeyState) {
    forall inc :: HasFinalizer(Live(ks.slot), inc) ==>
      HasFinalizer(Live(ks'.slot), inc) && Live(ks'.slot).value.spec.subject == Live(ks.slot).value.spec.subject
  }

  lemma UserKeepsBound(json: string -> bool, ks: KeyState)
    ensures forall spec, fs :: MayCreate(json, ks, spec) ==>
              Grows(ks, Create(ks, spec, fs)) && KeepsBound(ks, Create(ks, spec, fs))
    ensures forall spec, fs :: MayUpdate(json, ks, spec, fs) ==>
              Grows(ks, Update(ks, spec, fs)) && KeepsBound(ks, Update(ks, spec, fs))
    ensures Live(ks.slot).Some? ==> Grows(ks, DeleteByUser(ks)) && KeepsBound(ks, DeleteByUser(ks))
  {
    hide SpecValid;
  }

  /** A store that keeps the finalizer and the subject keeps every bond. */
  lemma StoreKeepsBound(ks: KeyState, o: Schema)
    requires Live(ks.slot).Some? && o.inc == Live(ks.slot).value.inc
    requires o.spec.subject == Live(ks.slot).value.spec.subject
    requires FINALIZER in Live(ks.slot).value.finalizers ==> FINALIZER in o.finalizers
    ensures Grows(ks, ks.(slot := Store(ks.slot, o))) && KeepsBound(ks, ks.(slot := Store(ks.slot, o)))
  {
  }

  lemma StatusKeepsBound(ks: KeyState, sent: Schema)
    ensures var stored := ApiUpdateStatus(ks.slot, sent);
            stored.Some? ==> Grows(ks, ks.(slot := stored.value)) && KeepsBound(ks, ks.(slot := stored.value))
  {
    if Current(ks.slot, sent) { StoreKeepsBound(ks, Live(ks.slot).value.(status := sent.status)); }
    hide Store;
  }

  lemma SameSlotIsBound(ks: KeyState, ks': KeyState)
    requires ks'.slot == ks.slot
    ensures Grows(ks, ks') && KeepsBound(ks, ks')
  {
  }

  /** The states a written call can leave the slot in. */
  lemma AdvanceSlot(json: string -> bool, ks: KeyState, i: Input)
    ensures var s' := Advance(json, ks, i).slot;
            || s' == ks.slot
            || (ks.pc.AddFinalizer? &&
               ApiUpdate(json, ks.slot, ks.pc.obj.(finalizers := ks.pc.obj.finalizers + {FINALIZER})) == Some(s'))
            || (ks.pc.StatusWrite? &&
               ApiUpdateStatus(ks.slot,
                 ks.pc.obj.(status := RegisteredStatus(ks.pc.obj, ks.pc.id, ks.pc.version, ks.pc.now))) == Some(s'))
            || (ks.pc.FailWrite? &&
               ApiUpdateStatus(ks.slot,
                 ks.pc.obj.(status := FailedStatus(ks.pc.obj, ks.pc.reason, ks.pc.message, ks.pc.now))) == Some(s'))
            || (ks.pc.CleanupFinalize? &&
               ApiUpdate(json, ks.slot, ks.pc.obj.(finalizers := ks.pc.obj.finalizers - {FINALIZER})) == Some(s'))
  {
    hide ApiUpdate, ApiUpdateStatus, RegisteredStatus, FailedStatus;
  }

  /** Only the finalizer's own removal ends a bond. */
  lemma AdvanceKeepsBound(json: string -> bool, ks: KeyState, i: Input)
    requires KeyInv(json, ks)
    ensures !ks.pc.CleanupFinalize? || Advance(json, ks, i).slot == ks.slot ==>
              Grows(ks, Advance(json, ks, i)) && KeepsBound(ks, Advance(json, ks, i))
  {
    AdvanceSlot(json, ks, i);
    hide KeyInv, RegisteredStatus, FailedStatus, ApiUpdate, ApiUpdateStatus;
    var ks' := Advance(json, ks, i);
    hide Advance;
    if ks'.slot == ks.slot {
      SameSlotIsBound(ks, ks');
    } else {
      match ks.pc
      case AddFinalizer(o) =>
        FinalizersStored(json, ks, o.finalizers + {FINALIZER});
        StoreKeepsBound(ks, o.(finalizers := o.finalizers + {FINALIZER}));
      case StatusWrite(o, _, id, version, _, now) =>
        StatusKeepsBound(ks, o.(status := RegisteredStatus(o, id, version, now)));
      case FailWrite(o, reason, message, now) =>
        StatusKeepsBound(ks, o.(status := FailedStatus(o, reason, message, now)));
      case _ =>
    }
  }
}
