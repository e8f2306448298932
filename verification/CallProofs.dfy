/** One call of a reconcile keeps `Inv`. */
module CallProofs {
  import opened Kube
  import opened Api
  import opened Registry
  import opened SchemaKey
  import opened SchemaKeyProofs
  import opened Cluster
  import opened ClusterProofs

  ghost function After(w: World, k: Key, outcome: Outcome): KeyState
    requires k in w.keys
  {
    SchemaKey.Advance(w.json, w.keys[k], InputFor(w, k, outcome))
  }

  /** The calls after which a reconcile ends, or may end. */
  predicate MayEnd(pc: Pc) {
    pc.Start? || pc.CleanupDelete? || pc.CleanupFinalize? || pc.AddFinalizer? || pc.Refetch? ||
    pc.StatusFetch? || pc.StatusWrite? || pc.FailFetch? || pc.FailWrite?
  }

  // ----- the reconcile's own key -----

  /** How a reconcile comes to hold a URL. */
  lemma UrlSource(json: string -> bool, ks: KeyState, i: Input)
    ensures var n := SchemaKey.Advance(json, ks, i);
            UrlOf(n.pc).Some? ==>
              && n.slot == ks.slot && n.dirty == ks.dirty
              && ((ks.pc.GetRegistry? && i.url == UrlOf(n.pc) && n.pc.obj == ks.pc.obj)
                  || (UrlOf(ks.pc) == UrlOf(n.pc) && (n.pc.obj == ks.pc.obj || Cached(ks.slot) == Some(n.pc.obj))))
  {
    hide ApiUpdate, ApiUpdateStatus, RegisteredStatus, FailedStatus;
  }

  /** How a reconcile comes to hold an id. */
  lemma AckSource(json: string -> bool, ks: KeyState, i: Input, k: Key)
    ensures var n := SchemaKey.Advance(json, ks, i);
            AckOf(k, n.pc).Some? ==>
              || (ks.pc.Post? && i.outcome.Done? && n.pc == Latest(ks.pc.obj, ks.pc.url, i.id))
              || (AckOf(k, ks.pc).Some? && AckOf(k, n.pc) == AckOf(k, ks.pc))
              || (ks.pc.StatusFetch? && Cached(ks.slot).Some? &&
                  n.pc ==
                    StatusWrite(Cached(ks.slot).value, ks.pc.url, ks.pc.id, ks.pc.version, RequestOf(ks.pc.obj.spec),
                      i.now))
  {
    hide ApiUpdate, ApiUpdateStatus, RegisteredStatus, FailedStatus;
  }

  /** How a reconcile comes to clean up. */
  lemma CleanupSource(json: string -> bool, ks: KeyState, i: Input)
    ensures var n := SchemaKey.Advance(json, ks, i);
            && (Cleaning(n.pc) ==>
                 (ks.pc.Start? && Cached(ks.slot) == Some(n.pc.obj)) || (Cleaning(ks.pc) && n.pc.obj == ks.pc.obj))
            && (n.pc.CleanupFinalize? && n.pc.cleaned.Some? ==>
                  ks.pc == CleanupDelete(n.pc.obj, n.pc.cleaned.value) && i.outcome.Done?)
  {
    hide ApiUpdate, ApiUpdateStatus, RegisteredStatus, FailedStatus;
  }

  lemma CallAck(w: World, k: Key, outcome: Outcome)
    requires k in w.keys && KeyInv(w.json, w.keys[k]) && AckInv(w, k)
    ensures AckInv(CallBy(w, k, outcome), k)
  {
    if w.keys[k].pc.StatusFetch? { RefetchFindsTheObject(w.json, w.keys[k]); }
    AckSource(w.json, w.keys[k], InputFor(w, k, outcome), k);
    hide KeyInv, SchemaKey.Advance, AbandonedAfter, RemotesAfter, LedgerAfter;
  }

  lemma CallUrl(w: World, k: Key, outcome: Outcome)
    requires k in w.keys && KeyInv(w.json, w.keys[k]) && UrlInv(w, k)
    ensures UrlInv(CallBy(w, k, outcome), k)
  {
    assert FreshOk(w.keys[k]);
    UrlSource(w.json, w.keys[k], InputFor(w, k, outcome));
    hide KeyInv, SchemaKey.Advance, AbandonedAfter, RemotesAfter, LedgerAfter, AcksAfter;
  }

  /** A store of something new is an event under way. */
  lemma StoreIsNews(s: Slot<Schema>, o: Schema)
    requires Live(s).Some? && o != Live(s).value
    ensures !Delivered(Store(s, o))
  {
  }

  /** The states in which a reconcile can end without leaving anything to do. */
  lemma QuietEnds(w: World, k: Key, outcome: Outcome)
    requires k in w.keys && KeyInv(w.json, w.keys[k]) && HasObj(w.keys[k].pc) && Quiet(After(w, k, outcome))
    ensures w.keys[k].pc.StatusWrite? || w.keys[k].pc.Idle?
  {
    var ks := w.keys[k];
    if Registering(ks.pc) { RefetchFindsTheObject(w.json, ks); }
    if ks.pc.CleanupFinalize? {
      FinalizersStored(w.json, ks, ks.pc.obj.finalizers - {FINALIZER});
      var sent := ks.pc.obj.(finalizers := ks.pc.obj.finalizers - {FINALIZER});
      if Live(ks.slot) == Some(ks.pc.obj) {
        assert FINALIZER in ks.pc.obj.finalizers && FINALIZER !in sent.finalizers;
        StoreIsNews(ks.slot, sent);
      }
      hide KeyInv, ApiUpdate, Store;
    }
    hide KeyInv, ApiUpdate, ApiUpdateStatus, RegisteredStatus, FailedStatus;
  }

  /** The write that ends a successful reconcile either raises an event or changes nothing; and
      then the status was right already. */
  lemma SuccessIsSynchronised(w: World, k: Key, outcome: Outcome)
    requires k in w.keys && KeyInv(w.json, w.keys[k]) && LinkInv(w, k)
    requires w.keys[k].pc.StatusWrite? && Quiet(After(w, k, outcome))
    ensures Live(After(w, k, outcome).slot) == Some(w.keys[k].pc.obj) && !w.keys[k].pc.obj.deleting
    ensures Synchronised(w, k, w.keys[k].pc.obj)
  {
    var ks := w.keys[k];
    var o := ks.pc.obj;
    var n := o.(status := RegisteredStatus(o, ks.pc.id, ks.pc.version, ks.pc.now));
    var stored := ApiUpdateStatus(ks.slot, n);
    ObjIsOk(w.json, ks);
    RegisteredStatusFollows(o, ks.pc.id, ks.pc.version, ks.pc.now);
    assert FreshOk(ks);
    assert outcome.Done? && stored.Some?;
    CurrentMeansSame(w.json, ks);
    assert stored.value == Store(ks.slot, n);
    if n != o { StoreIsNews(ks.slot, n); }
    assert n == o;
    hide KeyInv, SchemaKey.Advance, Store, QuietInv, CleanupInv, Ready;
    assert AnsweredAt(w, k, o, ks.pc.url);
  }

  lemma CallQuiet(w: World, k: Key, outcome: Outcome)
    requires k in w.keys && KeyInv(w.json, w.keys[k]) && LinkInv(w, k) && !w.keys[k].pc.Idle?
    ensures QuietInv(CallBy(w, k, outcome), k)
  {
    var w' := CallBy(w, k, outcome);
    var ks := w.keys[k];
    if Quiet(After(w, k, outcome)) {
      if HasObj(ks.pc) {
        QuietEnds(w, k, outcome);
        SuccessIsSynchronised(w, k, outcome);
        StaysSynchronised(w, w', k, ks.pc.obj);
      }
    }
    hide KeyInv, LinkInv, Synchronised, ApiUpdate, ApiUpdateStatus, RegisteredStatus, FailedStatus;
  }

  lemma StaysSynchronised(w: World, w': World, k: Key, o: Schema)
    requires Synchronised(w, k, o) && w.acks <= w'.acks && w'.registries == w.registries
    ensures Synchronised(w', k, o)
  {
    var url :| AnsweredAt(w, k, o, url);
    assert AnsweredAt(w', k, o, url);
  }

  /** Whatever the operator registered for this key, it registered for no later object than the
      cache has shown. */
  lemma BindingsAreShown(w: World, k: Key, b: Binding)
    requires Inv(w) && b in w.ledger && b.key == k && k in w.keys
    requires Cached(w.keys[k].slot).Some?
    ensures b.inc <= Cached(w.keys[k].slot).value.inc
  {
    assert KeyInv(w.json, w.keys[k]) && BindingInv(w, b);
    var s := w.keys[k].slot;
    hide Inv, LinkInv, Bound, FinalizerOk, ThreadOk, FreshOk, VersionOk, Follows;
    var i :| 0 <= i <= s.seen && s.hist[i].Some? && s.hist[i].value.inc == b.inc;
    assert i < s.seen ==> s.hist[i].value.inc <= s.hist[s.seen].value.inc;
  }

  /** Bindings of one object name one subject. */
  lemma BindingSubject(w: World, k: Key, b: Binding)
    requires Inv(w) && b in w.ledger && b.key == k && k in w.keys
    requires HasObj(w.keys[k].pc) && b.inc == w.keys[k].pc.obj.inc
    ensures b.subject == w.keys[k].pc.obj.spec.subject
  {
    assert KeyInv(w.json, w.keys[k]) && BindingInv(w, b);
    var s := w.keys[k].slot;
    var o := w.keys[k].pc.obj;
    hide Inv, LinkInv, Bound, FinalizerOk, FreshOk, VersionOk;
    var i :| 0 <= i <= s.seen && s.hist[i].Some? && s.hist[i].value.inc == b.inc &&
      s.hist[i].value.spec.subject == b.subject;
    assert s.hist[o.rv] == Some(o);
    if i < o.rv { assert Follows(s.hist[i].value, o); }
    if o.rv < i { assert Follows(o, s.hist[i].value); }
  }

  lemma CallCleanup(w: World, k: Key, outcome: Outcome)
    requires Inv(w) && k in w.keys
    ensures CleanupInv(CallBy(w, k, outcome).ledger, k, After(w, k, outcome).pc)
  {
    KeyOf(w, k);
    var pc := w.keys[k].pc;
    forall b | b in w.ledger && b.key == k
      ensures pc.Start? && Cached(w.keys[k].slot).Some? ==> b.inc <= Cached(w.keys[k].slot).value.inc
      ensures HasObj(pc) && b.inc == pc.obj.inc ==> b.subject == pc.obj.spec.subject
    {
      hide KeyInv, LinkInv, Inv;
      if pc.Start? && Cached(w.keys[k].slot).Some? { BindingsAreShown(w, k, b); }
      if HasObj(pc) && b.inc == pc.obj.inc { BindingSubject(w, k, b); }
    }
    CleanupSource(w.json, w.keys[k], InputFor(w, k, outcome));
    hide Inv, KeyInv, QuietInv, UrlInv, AckInv, SchemaKey.Advance, AbandonedAfter, RemotesAfter, AcksAfter;
  }

  // ----- bindings -----

  lemma CallRemote(w: World, k: Key, outcome: Outcome, b: Binding)
    requires k in w.keys && b in LedgerAfter(w, k, w.keys[k].pc, outcome)
    requires b in w.ledger ==> b.subject in RemoteAt(w, b.url).subjects
    ensures b.subject in RemoteAt(CallBy(w, k, outcome), b.url).subjects
  {
    var pc := w.keys[k].pc;
    assert CallBy(w, k, outcome).remotes == RemotesAfter(w, pc, outcome) by {
      hide AbandonedAfter, AcksAfter, SchemaKey.Advance, RemotesAfter, LedgerAfter;
    }
    hide CallBy;
    match pc
    case Post(o, url) => RegisterHolds(RemoteAt(w, url), o.spec.subject, RequestOf(o.spec));
    case _ =>
  }

  lemma RegisterHolds(r: Registry, subject: string, content: Request)
    ensures subject in Register(r, subject, content).subjects
    ensures forall s :: s in r.subjects ==> s in Register(r, subject, content).subjects
  {
  }

  /** A new binding is bound: the finalizer was there before the registration. */
  lemma NewBinding(w: World, k: Key, outcome: Outcome, b: Binding)
    requires Inv(w) && k in w.keys && b in LedgerAfter(w, k, w.keys[k].pc, outcome) && b !in w.ledger
    ensures BindingInv(CallBy(w, k, outcome), b)
  {
    var ks := w.keys[k];
    KeyOf(w, k);
    assert ThreadOk(ks);
    hide Inv, KeyInv, LinkInv;
    CallRemote(w, k, outcome, b);
    assert ks.pc.Post? && b == Binding(ks.pc.url, ks.pc.obj.spec.subject, k, ks.pc.obj.inc);
    RefetchFindsTheObject(w.json, ks);
    assert HasShown(ks.slot, b.inc, b.subject);
    hide Inv, KeyInv, LinkInv, RemoteAt, RemotesAfter, LedgerAfter, AbandonedAfter, AcksAfter, HasShown;
    assert After(w, k, outcome).slot == ks.slot;
    hide SchemaKey.Advance;
  }

  lemma OldBinding(w: World, k: Key, outcome: Outcome, b: Binding)
    requires Inv(w) && k in w.keys && b in LedgerAfter(w, k, w.keys[k].pc, outcome) && b in w.ledger
    ensures BindingInv(CallBy(w, k, outcome), b)
  {
    KeyOf(w, k);
    assert BindingInv(w, b);
    CallRemote(w, k, outcome, b);
    if b in w.abandoned { AbandonedGrowth(w, k, outcome, b); }
    hide Inv, KeyInv, LinkInv, RemoteAt, LedgerAfter, SchemaKey.Advance, InputFor, CallBy, AbandonedAfter;
    if b.key == k && w.keys[k].pc.CleanupFinalize? && After(w, k, outcome).slot != w.keys[k].slot {
      RemovalAccounts(w, k, outcome, b);
    } else {
      hide BindingInv;
      UnremovedBinding(w, k, outcome, b);
    }
  }

  /** A call that does not remove this object's finalizer keeps its bindings. */
  lemma UnremovedBinding(w: World, k: Key, outcome: Outcome, b: Binding)
    requires k in w.keys && KeyInv(w.json, w.keys[k]) && BindingInv(w, b)
    requires b.key == k && w.keys[k].pc.CleanupFinalize? ==> After(w, k, outcome).slot == w.keys[k].slot
    requires b in w.abandoned ==> b in AbandonedAfter(w, k, outcome)
    requires b.subject in RemoteAt(CallBy(w, k, outcome), b.url).subjects
    ensures BindingInv(CallBy(w, k, outcome), b)
  {
    var w' := CallBy(w, k, outcome);
    AdvanceKeepsBound(w.json, w.keys[k], InputFor(w, k, outcome));
    hide KeyInv, RemoteAt, LedgerAfter, RemotesAfter, AcksAfter, SchemaKey.Advance, InputFor, AbandonedAfter, Grows,
         KeepsBound;
    if b.key != k { SameSlotIsBound(w.keys[b.key], w'.keys[b.key]); }
    BindingFrame(w, w', b);
  }

  lemma AbandonedGrowth(w: World, k: Key, outcome: Outcome, b: Binding)
    requires k in w.keys && b in LedgerAfter(w, k, w.keys[k].pc, outcome) && b in w.abandoned
    ensures b in AbandonedAfter(w, k, outcome)
  {
    hide RemovesFinalizer;
  }

  lemma RemovalAbandons(w: World, k: Key, outcome: Outcome, b: Binding)
    requires Inv(w) && k in w.keys && b in w.ledger && b.key == k
    requires w.keys[k].pc.CleanupFinalize? && After(w, k, outcome).slot != w.keys[k].slot
    requires b in w.abandoned ==> b in AbandonedAfter(w, k, outcome)
    ensures b in AbandonedAfter(w, k, outcome)
    ensures w.keys[k].slot.hist <= After(w, k, outcome).slot.hist &&
            w.keys[k].slot.seen == After(w, k, outcome).slot.seen
  {
    var ks := w.keys[k];
    KeyOf(w, k);
    assert BindingInv(w, b);
    hide Inv, LinkInv;
    FinalizersStored(w.json, ks, ks.pc.obj.finalizers - {FINALIZER});
    hide KeyInv;
    assert RemovesFinalizer(w, k, outcome) by { hide ApiUpdate; }
    if b !in w.abandoned {
      assert b.inc == ks.pc.obj.inc;
      assert b in LeftBy(w.ledger, k, ks.pc.obj.inc);
    }
  }

  /** When the finalizer goes, every binding of that object is recorded as abandoned. */
  lemma RemovalAccounts(w: World, k: Key, outcome: Outcome, b: Binding)
    requires Inv(w) && k in w.keys && b in w.ledger && b.key == k
    requires w.keys[k].pc.CleanupFinalize? && After(w, k, outcome).slot != w.keys[k].slot
    requires b in w.abandoned ==> b in AbandonedAfter(w, k, outcome)
    requires b.subject in RemoteAt(CallBy(w, k, outcome), b.url).subjects
    ensures BindingInv(CallBy(w, k, outcome), b)
  {
    RemovalAbandons(w, k, outcome, b);
    assert BindingInv(w, b);
    hide Inv, SchemaKey.Advance, AbandonedAfter;
    HasShownGrows(w.keys[k].slot, After(w, k, outcome).slot, b.inc, b.subject);
    hide HasShown, RemoteAt, RemotesAfter, LedgerAfter, AcksAfter, InputFor;
  }

  lemma CallAbandoned(w: World, k: Key, outcome: Outcome)
    requires k in w.keys && w.abandoned <= w.ledger
    ensures AbandonedAfter(w, k, outcome) <= LedgerAfter(w, k, w.keys[k].pc, outcome)
  {
    hide ApiUpdate;
  }

  lemma CallRemotesOk(w: World, k: Key, outcome: Outcome)
    requires k in w.keys && forall url :: url in w.remotes ==> RegistryOk(w.remotes[url])
    ensures forall url :: url in RemotesAfter(w, w.keys[k].pc, outcome) ==>
              RegistryOk(RemotesAfter(w, w.keys[k].pc, outcome)[url])
  {
    hide RegistryOk, Register, Delete, SetLevel;
    match w.keys[k].pc
    case Post(o, url) => RemotesStayOk(w, url, ForeignRegister(o.spec.subject, RequestOf(o.spec)));
    case Compat(o, url, _, _) => RemotesStayOk(w, url, ForeignLevel(o.spec.subject, o.spec.compatibilityLevel));
    case CleanupDelete(o, url) => RemotesStayOk(w, url, ForeignDelete(o.spec.subject));
    case _ =>
  }

  // ----- together -----

  lemma OwnLink(w: World, k: Key, outcome: Outcome)
    requires k in w.keys && !w.keys[k].pc.Idle?
    ensures KeyInv(w.json, w.keys[k]) && LinkInv(w, k) &&
            CleanupInv(CallBy(w, k, outcome).ledger, k, After(w, k, outcome).pc)
            ==> LinkInv(CallBy(w, k, outcome), k)
  {
    if KeyInv(w.json, w.keys[k]) && LinkInv(w, k) &&
      CleanupInv(CallBy(w, k, outcome).ledger, k, After(w, k, outcome).pc) {
      hide KeyInv, AckInv, UrlInv, QuietInv, CleanupInv, SchemaKey.Advance, InputFor;
      CallAck(w, k, outcome);
      CallUrl(w, k, outcome);
      CallQuiet(w, k, outcome);
    }
  }

  lemma OtherLink(w: World, k: Key, outcome: Outcome, l: Key)
    requires Inv(w) && Enabled(w, Call(k, outcome)) && l in w.keys && l != k
    ensures LinkInv(CallBy(w, k, outcome), l)
  {
    KeyOf(w, l);
    hide Inv, KeyInv, LinkInv, SchemaKey.Advance, InputFor, RemotesAfter, AbandonedAfter;
    LinkFrame(w, CallBy(w, k, outcome), l);
  }

  lemma CallKeepsLinks(w: World, k: Key, outcome: Outcome, l: Key)
    requires Inv(w) && Enabled(w, Call(k, outcome)) && l in w.keys
    ensures LinkInv(CallBy(w, k, outcome), l)
  {
    hide KeyInv, LinkInv, AckInv, UrlInv, QuietInv, CleanupInv, SchemaKey.Advance, CallBy;
    if l == k {
      KeyOf(w, k);
      CallCleanup(w, k, outcome);
      OwnLink(w, k, outcome);
    } else {
      hide Inv;
      OtherLink(w, k, outcome, l);
    }
  }

  lemma CallKeepsBindings(w: World, k: Key, outcome: Outcome, b: Binding)
    requires Inv(w) && k in w.keys && b in LedgerAfter(w, k, w.keys[k].pc, outcome)
    ensures BindingInv(CallBy(w, k, outcome), b)
  {
    hide Inv, BindingInv, LedgerAfter, CallBy;
    if b in w.ledger { OldBinding(w, k, outcome, b); } else { NewBinding(w, k, outcome, b); }
  }

  lemma CallKeepsKeys(w: World, k: Key, outcome: Outcome, l: Key)
    requires Inv(w) && k in w.keys && l in w.keys
    ensures KeyInv(w.json, CallBy(w, k, outcome).keys[l])
  {
    KeyOf(w, k);
    KeyOf(w, l);
    hide Inv, KeyInv, SchemaKey.Advance, InputFor, RemotesAfter, LedgerAfter, AbandonedAfter, AcksAfter;
    AdvanceKeeps(w.json, w.keys[k], InputFor(w, k, outcome));
  }

  lemma CallKeeps(w: World, k: Key, outcome: Outcome)
    requires Inv(w) && Enabled(w, Call(k, outcome))
    ensures Inv(Apply(w, Call(k, outcome)))
  {
    var w' := CallBy(w, k, outcome);
    CallAbandoned(w, k, outcome);
    CallRemotesOk(w, k, outcome);
    hide KeyInv, LinkInv, BindingInv, RegistryOk, SchemaKey.Advance, InputFor, RemotesAfter, LedgerAfter,
         AbandonedAfter, AcksAfter;
    forall l | l in w'.keys ensures KeyInv(w.json, w'.keys[l]) && LinkInv(w', l) {
      hide Inv;
      CallKeepsKeys(w, k, outcome, l);
      CallKeepsLinks(w, k, outcome, l);
    }
    forall b | b in w'.ledger ensures BindingInv(w', b) {
      hide Inv;
      CallKeepsBindings(w, k, outcome, b);
    }
  }

  lemma ApplyKeeps(w: World, a: Action)
    requires Inv(w) && Enabled(w, a)
    ensures Inv(Apply(w, a))
  {
    hide Inv;
    match a
    case UserCreate(k, spec, fs) => UserCreateKeeps(w, k, spec, fs);
    case UserUpdate(k, spec, fs) => UserUpdateKeeps(w, k, spec, fs);
    case UserDelete(k) => UserDeleteKeeps(w, k);
    case EditRegistry(rk, content) => EditRegistryKeeps(w, rk, content);
    case Deliver(k, to) => DeliverActionKeeps(w, k, to);
    case DeliverRegistry(rk, to) => DeliverRegistryKeeps(w, rk, to);
    case Fire(k) => FireKeeps(w, k);
    case Dequeue(k) => DequeueKeeps(w, k);
    case Tick => TickKeeps(w);
    case Restart => RestartActionKeeps(w);
    case Remote(url, op) => RemoteKeeps(w, url, op);
    case Call(k, outcome) => CallKeeps(w, k, outcome);
  }

  lemma TickKeeps(w: World)
    requires Inv(w)
    ensures Inv(Apply(w, Tick))
  {
    var w' := Apply(w, Tick);
    hide KeyInv;
    forall k | k in w'.keys ensures LinkInv(w', k) { LinkFrame(w, w', k); }
    forall b | b in w'.ledger ensures BindingInv(w', b) { assert BindingInv(w, b); }
  }

  lemma {:induction false} RunKeeps(w: World, run: seq<Action>)
    requires Inv(w) && ValidRun(w, run)
    ensures Inv(Run(w, run))
    decreases |run|
  {
    hide Inv;
    if run != [] {
      ApplyKeeps(w, run[0]);
      RunKeeps(Apply(w, run[0]), run[1..]);
    }
  }

  lemma InitialInv(w: World)
    requires Initial(w)
    ensures Inv(w)
  {
    forall k | k in w.keys ensures KeyInv(w.json, w.keys[k]) && LinkInv(w, k) {
      assert Untouched(w.keys[k]);
      hide RegistryOk, VersionOk, Follows;
    }
    hide KeyInv, LinkInv, RegistryOk;
  }

  /** The system's invariant: whatever users, other writers, crashes, stale reads and lost answers
      have done, every reachable world satisfies `Inv`. */
  lemma ReachableInv(w: World)
    requires Reachable(w)
    ensures Inv(w)
  {
    var start, run :| Initial(start) && Reaches(start, run, w);
    InitialInv(start);
    hide Inv, Initial;
    RunKeeps(start, run);
  }
}
