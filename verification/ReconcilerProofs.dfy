/** What the Schema controller's code relies on between and at its calls. */
module ReconcilerProofs {
  import opened Kube
  import opened Api
  import opened Admission
  import opened Registry
  import opened SchemaKey
  import opened SchemaKeyProofs
  import opened Cluster
  import opened ClusterProofs
  import opened CallProofs
  import opened Theorems
  import opened Ledger
  import opened Versions

  // ----- the recorded run -----

  /** The recorded run starts at the beginning and leads to this world. */
  ghost predicate Recorded(origin: World, trace: seq<Action>, w: World) {
    Initial(origin) && Reaches(origin, trace, w)
  }

  lemma RecordedIsReachable(origin: World, trace: seq<Action>, w: World)
    requires Recorded(origin, trace, w)
    ensures Reachable(w)
  {
    hide Initial, Reaches;
  }

  lemma RecordMore(origin: World, trace: seq<Action>, w: World, a: Action)
    requires Recorded(origin, trace, w) && Enabled(w, a)
    ensures Recorded(origin, trace + [a], Apply(w, a))
  {
    hide Initial, Enabled, Apply;
    RunAppend(origin, trace, a);
  }

  /** Everything except this key's own reconcile, and a restart, which would end it. */
  predicate Foreign(key: Key, a: Action) {
    !a.Restart? && !(a.Call? && a.key == key) && !(a.Dequeue? && a.key == key)
  }

  /** A step of this very reconcile. */
  predicate Own(key: Key, a: Action) {
    a.Call? && a.key == key
  }

  /** The run has grown by calls of this reconcile and by what others did meanwhile, and by nothing else. */
  ghost predicate Extends(key: Key, before: seq<Action>, after: seq<Action>) {
    before <= after && forall i :: |before| <= i < |after| ==> Foreign(key, after[i]) || Own(key, after[i])
  }

  ghost predicate OnlyForeign(key: Key, before: seq<Action>, after: seq<Action>) {
    before <= after && forall i :: |before| <= i < |after| ==> Foreign(key, after[i])
  }

  /** The first own call of the new part of the run found this in the cache. */
  ghost predicate StartsFrom(key: Key, origin: World, before: seq<Action>, after: seq<Action>, got: Option<Schema>) {
    exists n, w: World :: StartsFromAt(key, origin, before, after, got, n, w)
  }

  ghost predicate StartsFromAt(key: Key, origin: World, before: seq<Action>, after: seq<Action>, got: Option<Schema>,
      n: int, w: World) {
    && |before| <= n < |after| && Own(key, after[n])
    && OnlyForeign(key, before, after[..n])
    && Recorded(origin, after[..n], w) && key in w.keys && Cached(w.keys[key].slot) == got
  }

  lemma StartsFromStays(key: Key, origin: World, before: seq<Action>, after: seq<Action>, longer: seq<Action>,
      got: Option<Schema>)
    requires StartsFrom(key, origin, before, after, got) && after <= longer
    ensures StartsFrom(key, origin, before, longer, got)
  {
    hide Recorded, OnlyForeign;
    var n, w: World :| StartsFromAt(key, origin, before, after, got, n, w);
    assert after[..n] == longer[..n];
    assert StartsFromAt(key, origin, before, longer, got, n, w);
  }

  /** What time does not undo. */
  ghost predicate Later(key: Key, w: World, w': World) {
    && key in w.keys && key in w'.keys && Grows(w.keys[key], w'.keys[key])
    && w.acks <= w'.acks
    && (forall rk :: rk in w.registries ==>
          && rk in w'.registries
          && w.registries[rk].hist <= w'.registries[rk].hist && w.registries[rk].seen <= w'.registries[rk].seen)
  }

  ghost predicate Leads(key: Key, trace: seq<Action>, w: World, trace': seq<Action>, w': World) {
    Extends(key, trace, trace') && Later(key, w, w')
  }

  lemma LeadsIsTransitive(key: Key)
    ensures forall t, w: World :: key in w.keys ==> Leads(key, t, w, t, w)
    ensures forall t0, w0, t1, w1, t2, w2 ::
              Leads(key, t0, w0, t1, w1) && Leads(key, t1, w1, t2, w2) ==> Leads(key, t0, w0, t2, w2)
  {
    forall t0, w0, t1, w1, t2, w2 | Leads(key, t0, w0, t1, w1) && Leads(key, t1, w1, t2, w2)
      ensures Leads(key, t0, w0, t2, w2)
    {
      ExtendsIsTransitive(key, t0, t1, t2);
      LaterIsTransitive(key, w0, w1, w2);
      hide Extends, Later;
    }
  }

  lemma ExtendsIsTransitive(key: Key, t0: seq<Action>, t1: seq<Action>, t2: seq<Action>)
    requires Extends(key, t0, t1) && Extends(key, t1, t2)
    ensures Extends(key, t0, t2)
  {
  }

  lemma LaterIsTransitive(key: Key, w0: World, w1: World, w2: World)
    requires Later(key, w0, w1) && Later(key, w1, w2)
    ensures Later(key, w0, w2)
  {
  }

  lemma BondsAreTransitive()
    ensures forall a, b, c :: KeepsBound(a, b) && KeepsBound(b, c) ==> KeepsBound(a, c)
    ensures forall a :: KeepsBound(a, a)
  {
  }

  lemma ActionIsLater(w: World, a: Action, key: Key)
    requires Inv(w) && Enabled(w, a) && key in w.keys
    ensures Later(key, w, Apply(w, a))
  {
    KeysGrow(w, a, key);
    AcksGrow(w, a);
    forall rk | rk in w.registries
      ensures rk in Apply(w, a).registries && w.registries[rk].hist <= Apply(w, a).registries[rk].hist
      ensures w.registries[rk].seen <= Apply(w, a).registries[rk].seen
    {
      RegistriesGrow(w, a, rk);
      hide Inv, Enabled, Apply;
    }
    hide Inv, Enabled, Apply, Grows;
  }

  lemma RecordLeads(origin: World, trace: seq<Action>, w: World, a: Action, key: Key)
    requires Recorded(origin, trace, w) && Enabled(w, a) && key in w.keys && (Foreign(key, a) || Own(key, a))
    ensures Recorded(origin, trace + [a], Apply(w, a)) && Leads(key, trace, w, trace + [a], Apply(w, a))
  {
    RecordedIsReachable(origin, trace, w);
    ReachableInv(w);
    hide Inv, Recorded, Enabled, Apply, Later, Foreign, Own;
    RecordMore(origin, trace, w, a);
    ActionIsLater(w, a, key);
  }

  lemma AcksGrow(w: World, a: Action)
    requires Enabled(w, a)
    ensures w.acks <= Apply(w, a).acks
  {
    hide SchemaKey.Advance, RemotesAfter, LedgerAfter, AbandonedAfter, Wake, MayCreate, MayUpdate;
  }

  /** Others neither move this reconcile nor take the finalizer away. */
  lemma ForeignIsHarmless(w: World, a: Action, key: Key)
    requires Enabled(w, a) && Foreign(key, a) && key in w.keys
    ensures key in Apply(w, a).keys && Apply(w, a).keys[key].pc == w.keys[key].pc
    ensures KeepsBound(w.keys[key], Apply(w, a).keys[key])
  {
    UserKeepsBound(w.json, w.keys[key]);
    hide MayCreate, MayUpdate, SchemaKey.Advance, InputFor, RemotesAfter, LedgerAfter, AbandonedAfter, AcksAfter,
         WokenBy, Store, Perform, Without;
  }

  // ----- what the calls read -----

  /** Where the reconcile goes once it knows what `Get` returned. */
  function AfterGet(pc: Pc, got: Option<Schema>, now: nat): Pc {
    match pc
    case Start =>
      if got.None? then Idle
      else if got.value.deleting then
        if FINALIZER in got.value.finalizers then CleanupGetRegistry(got.value) else Idle
      else if FINALIZER !in got.value.finalizers then AddFinalizer(got.value)
      else GetRegistry(got.value)
    case Refetch(_) => if got.None? then Idle else GetRegistry(got.value)
    case StatusFetch(o, url, id, version) =>
      if got.None? then Idle else StatusWrite(got.value, url, id, version, RequestOf(o.spec), now)
    case FailFetch(_, reason, message) => if got.None? then Idle else FailWrite(got.value, reason, message, now)
    case _ => pc
  }

  lemma GetAdvances(json: string -> bool, ks: KeyState, i: Input)
    requires ks.pc.Start? || ks.pc.Refetch? || ks.pc.StatusFetch? || ks.pc.FailFetch?
    ensures var n := SchemaKey.Advance(json, ks, i);
            && n.slot == ks.slot && n.pc == AfterGet(ks.pc, Cached(ks.slot), i.now)
            && n.timer == (ks.timer || (ks.pc.FailFetch? && Cached(ks.slot).None?))
  {
  }

  // ----- what the calls store -----

  /** A status update that succeeds stores exactly what was sent. */
  lemma StatusStored(w: World, k: Key, outcome: Outcome, sent: Schema)
    requires Reachable(w) && Enabled(w, Call(k, outcome)) && (w.keys[k].pc.StatusWrite? || w.keys[k].pc.FailWrite?)
    requires sent == w.keys[k].pc.obj.(status := sent.status)
    ensures Written(w.keys[k], ApiUpdateStatus(w.keys[k].slot, sent), outcome).1 ==>
              ApiUpdateStatus(w.keys[k].slot, sent) == Some(Store(w.keys[k].slot, sent)) && FINALIZER in sent.finalizers
  {
    InvAt(w, k);
    if Current(w.keys[k].slot, sent) {
      assert Current(w.keys[k].slot, w.keys[k].pc.obj);
      CurrentMeansSame(w.json, w.keys[k]);
      assert ThreadOk(w.keys[k]);
    }
    hide KeyInv, LinkInv, Reachable, Store;
  }

  /** A status update is accepted exactly when it is current, and then replaces the very object in hand. */
  lemma StatusReplaces(w: World, k: Key, sent: Schema)
    requires Reachable(w) && k in w.keys && HasObj(w.keys[k].pc) && sent == w.keys[k].pc.obj.(status := sent.status)
    ensures ApiUpdateStatus(w.keys[k].slot, sent).Some? <==> Current(w.keys[k].slot, sent)
    ensures Current(w.keys[k].slot, sent) ==> Live(w.keys[k].slot) == Some(w.keys[k].pc.obj)
  {
    InvAt(w, k);
    if Current(w.keys[k].slot, sent) { CurrentMeansSame(w.json, w.keys[k]); }
    hide KeyInv, LinkInv, Reachable, Store;
  }

  /** A report does not depend on the resource version that its store got. */
  lemma StoredReports(fetched: Schema, sent: Schema, s: Slot<Schema>)
    requires sent == fetched.(status := sent.status)
    ensures Live(s).Some? && IsStored(s, sent) && FailureReport(fetched, sent.(rv := 0)) ==>
              FailureReport(fetched, Live(s).value)
    ensures Live(s).Some? && IsStored(s, sent) && SuccessReport(fetched, sent.(rv := 0)) ==>
              SuccessReport(fetched, Live(s).value)
  {
    hide OthersUntouched, FindCondition;
  }

  /** What is live after a store. */
  lemma StoredIsLive(s: Slot<Schema>, o: Schema)
    requires Live(s).Some? && Live(s).value.rv == o.rv
    ensures var n := Store(s, o);
            if o == Live(s).value ||
              !(o.deleting && o.finalizers == {}) then Live(n).Some? && Live(n).value == o.(rv := Live(n).value.rv)
            else Live(n).None?
  {
  }

  /** The object is as it was sent, up to its resource version. */
  ghost predicate IsStored(s: Slot<Schema>, sent: Schema) {
    if sent.deleting && sent.finalizers == {} then Live(s).None?
    else Live(s).Some? && Live(s).value == sent.(rv := Live(s).value.rv)
  }

  lemma StatusIsStored(w: World, k: Key, outcome: Outcome, sent: Schema)
    requires Reachable(w) && Enabled(w, Call(k, outcome)) && (w.keys[k].pc.StatusWrite? || w.keys[k].pc.FailWrite?)
    requires sent == w.keys[k].pc.obj.(status := sent.status)
    ensures Written(w.keys[k], ApiUpdateStatus(w.keys[k].slot, sent), outcome).1 ==>
              IsStored(Written(w.keys[k], ApiUpdateStatus(w.keys[k].slot, sent), outcome).0.slot, sent)
  {
    StatusStored(w, k, outcome, sent);
    hide Reachable, Enabled, Store;
    if Current(w.keys[k].slot, sent) { StoredIsLive(w.keys[k].slot, sent); }
  }

  /** So does an update of the finalizers. */
  lemma FinalizersAreStored(w: World, k: Key, outcome: Outcome, sent: Schema)
    requires Reachable(w) && Enabled(w, Call(k, outcome)) &&
             (w.keys[k].pc.AddFinalizer? || w.keys[k].pc.CleanupFinalize?)
    requires sent == w.keys[k].pc.obj.(finalizers := sent.finalizers) && sent.finalizers != w.keys[k].pc.obj.finalizers
    ensures Written(w.keys[k], ApiUpdate(w.json, w.keys[k].slot, sent), outcome).1 ==>
              IsStored(Written(w.keys[k], ApiUpdate(w.json, w.keys[k].slot, sent), outcome).0.slot, sent)
  {
    InvAt(w, k);
    FinalizersStored(w.json, w.keys[k], sent.finalizers);
    if Live(w.keys[k].slot) == Some(w.keys[k].pc.obj) { StoredIsLive(w.keys[k].slot, sent); }
    hide Reachable, Enabled, Store, KeyInv, LinkInv, ApiUpdate;
  }

  /** In the two finalizer branches the update changes something. */
  lemma FinalizersChange(w: World, k: Key)
    requires Reachable(w) && k in w.keys
    ensures w.keys[k].pc.AddFinalizer? ==> FINALIZER !in w.keys[k].pc.obj.finalizers && !w.keys[k].pc.obj.deleting
    ensures w.keys[k].pc.CleanupFinalize? ==> FINALIZER in w.keys[k].pc.obj.finalizers && w.keys[k].pc.obj.deleting
  {
    InvAt(w, k);
    assert ThreadOk(w.keys[k]);
    hide KeyInv, LinkInv, Reachable;
  }

  /** A re-fetch gets the object it is after. */
  lemma RefetchedIsSame(w: World, k: Key)
    requires Reachable(w) && k in w.keys && Registering(w.keys[k].pc) && Cached(w.keys[k].slot).Some?
    ensures Cached(w.keys[k].slot).value.inc == w.keys[k].pc.obj.inc
  {
    InvAt(w, k);
    RefetchFindsTheObject(w.json, w.keys[k]);
  }

  /** Calls other than the removal of the finalizer keep it. */
  lemma CallKeepsBond(w: World, k: Key, outcome: Outcome)
    requires Reachable(w) && Enabled(w, Call(k, outcome)) && !w.keys[k].pc.CleanupFinalize?
    ensures k in Apply(w, Call(k, outcome)).keys && KeepsBound(w.keys[k], Apply(w, Call(k, outcome)).keys[k])
  {
    InvAt(w, k);
    CallSeen(w, k, outcome);
    AdvanceKeepsBound(w.json, w.keys[k], InputFor(w, k, outcome));
    hide KeyInv, LinkInv, Reachable, Apply, Enabled, SchemaKey.Advance, InputFor, KeepsBound, Grows;
  }

  lemma RegisterHolds(r: Registry, subject: string, content: Request)
    ensures Holds(Register(r, subject, content), subject, content)
  {
    if !Holds(r, subject, content) {
      var es := Entries(Register(r, subject, content), subject);
      assert es[|es| - 1].content == content;
    }
  }

  lemma AdvanceKeepsSeen(json: string -> bool, ks: KeyState, i: Input)
    ensures SchemaKey.Advance(json, ks, i).slot.seen == ks.slot.seen
  {
    AdvanceSlot(json, ks, i);
    hide SchemaKey.Advance, AdmitsUpdate, RegisteredStatus, FailedStatus;
  }

  // ----- how a reconcile ends -----

  /** The live object reports the registration: id, version, time and generation, and Ready says so. */
  ghost predicate ReportsRegistered(s: Slot<Schema>, inc: nat, id: nat, version: nat) {
    && HasFinalizer(Live(s), inc)
    && var o := Live(s).value;
    && o.status.schemaId == Some(id) && o.status.version == Some(version) && o.status.registeredAt.Some?
    && o.status.observedGeneration == o.generation
    && Ready(o).Some?
    && Ready(o).value.(lastTransition := 0) ==
       Condition(READY, IsTrue, "Registered", RegisteredAs(id, version), o.generation, 0)
  }

  /** The live object reports the failure. */
  ghost predicate ReportsFailure(s: Slot<Schema>, inc: nat, reason: string, message: Message) {
    && HasFinalizer(Live(s), inc)
    && var o := Live(s).value;
    && Ready(o).Some?
    && Ready(o).value.(lastTransition := 0) == Condition(READY, IsFalse, reason, message, o.generation, 0)
  }

  /** The registry at a URL seen for this very reference answered a request with exactly the text, type
      and references of `o`, and the live object of the same incarnation reports the answer. */
  ghost predicate RegisteredAt(w: World, key: Key, o: Schema, url: string, id: nat, version: nat)
    requires key in w.keys
  {
    && Acknowledged(w, key, o, url, id)
    && ReferencedUrl(w, key, o, url)
    && ReportsRegistered(w.keys[key].slot, o.inc, id, version)
  }

  ghost predicate Registered(w: World, key: Key, o: Schema)
    requires key in w.keys
  {
    exists url, id, version :: RegisteredAt(w, key, o, url, id, version)
  }

  ghost predicate RegisteredFor(w: World, key: Key, inc: nat)
    requires key in w.keys
  {
    exists o: Schema :: o.inc == inc && Registered(w, key, o)
  }

  ghost predicate FailureReported(s: Slot<Schema>, inc: nat) {
    exists message ::
      ReportsFailure(s, inc, "ClientBuildFailed", message) || ReportsFailure(s, inc, "RegistrationFailed", message)
  }

  lemma ReferencedStays(key: Key, w: World, w': World, o: Schema, url: string)
    requires Later(key, w, w') && ReferencedUrl(w, key, o, url)
    ensures ReferencedUrl(w', key, o, url)
  {
    var rk := Auth.Resolve(key, o.spec.registryRef);
    var j :| 0 <= j <= w.registries[rk].seen && w.registries[rk].hist[j].Some? &&
      w.registries[rk].hist[j].value.url == url;
    assert w'.registries[rk].hist[j] == w.registries[rk].hist[j];
  }

  lemma LookupIsReferenced(w: World, key: Key, o: Schema)
    ensures UrlFor(w, key, o).Some? ==> ReferencedUrl(w, key, o, UrlFor(w, key, o).value)
  {
    var rk := Auth.Resolve(key, o.spec.registryRef);
    if rk in w.registries {
      assert w.registries[rk].hist[w.registries[rk].seen] == Cached(w.registries[rk]);
    }
  }

  lemma RegisteredStatusReports(o: Schema, id: nat, version: nat, now: nat)
    ensures var n := o.(status := RegisteredStatus(o, id, version, now));
            Ready(n).Some? &&
            Ready(n).value.(lastTransition := 0) ==
              Condition(READY, IsTrue, "Registered", RegisteredAs(id, version), o.generation, 0)
  {
    SetStatusConditionMeaning(o.status.conditions,
      Condition(READY, IsTrue, "Registered", RegisteredAs(id, version), o.generation, now), now, "");
    hide FindCondition, SetStatusCondition;
  }

  lemma FailedStatusReports(o: Schema, reason: string, message: Message, now: nat)
    ensures var n := o.(status := FailedStatus(o, reason, message, now));
            Ready(n).Some? &&
            Ready(n).value.(lastTransition := 0) == Condition(READY, IsFalse, reason, message, o.generation, 0)
  {
    SetStatusConditionMeaning(o.status.conditions,
      Condition(READY, IsFalse, reason, message, o.generation, now), now, "");
    hide FindCondition, SetStatusCondition;
  }
}
