/** What holds of the Schema controller in every reachable world and over every run. */
module Theorems {
  import opened Kube
  import opened Api
  import opened Admission
  import opened Registry
  import opened Auth
  import opened SchemaKey
  import opened SchemaKeyProofs
  import opened Cluster
  import opened ClusterProofs
  import opened CallProofs

  lemma InvAt(w: World, k: Key)
    requires Reachable(w) && k in w.keys
    ensures KeyInv(w.json, w.keys[k]) && LinkInv(w, k)
  {
    ReachableInv(w);
    KeyOf(w, k);
  }

  // ----- the ledger -----

  /** Conservation: whatever the operator has registered and still exists either belongs to a live
      custom resource that carries the finalizer and names the subject, or is recorded as abandoned. */
  lemma Conservation(w: World, b: Binding)
    requires Reachable(w) && b in w.ledger
    ensures b.subject in RemoteAt(w, b.url).subjects
    ensures b in w.abandoned || Bound(w.keys, b)
    ensures w.abandoned <= w.ledger
  {
    ReachableInv(w);
    hide KeyInv, LinkInv;
  }

  /** A registration is abandoned exactly when its object's finalizer is removed while it is still in
      the ledger; and that happens only when the cleanup was skipped or went to another URL. */
  lemma AbandonedExactly(w: World, a: Action, b: Binding)
    requires Reachable(w) && Enabled(w, a) && b !in w.abandoned
    ensures b in Apply(w, a).abandoned <==>
            b in w.ledger && a.Call? && a.key == b.key && RemovesFinalizer(w, a.key, a.outcome) &&
              w.keys[a.key].pc.obj.inc == b.inc
    ensures b in Apply(w, a).abandoned ==> w.keys[a.key].pc.cleaned != Some(b.url)
  {
    if a.Call? {
      InvAt(w, a.key);
      hide KeyInv, QuietInv, AckInv, UrlInv;
      assert CleanupInv(w.ledger, a.key, w.keys[a.key].pc);
    }
    hide KeyInv, Reachable, SchemaKey.Advance, ApiUpdate, RemotesAfter, LedgerAfter, AcksAfter, Wake, MayUpdate,
         MayCreate;
  }

  // ----- finalizer before effect -----

  /** At every registration the live object itself, not only the copy in hand, is the one that is
      registered for and carries the finalizer. */
  lemma FinalizerBeforeEffect(w: World, k: Key)
    requires Reachable(w) && k in w.keys && w.keys[k].pc.Post?
    ensures HasFinalizer(Live(w.keys[k].slot), w.keys[k].pc.obj.inc)
    ensures Live(w.keys[k].slot).value.spec.subject == w.keys[k].pc.obj.spec.subject
  {
    InvAt(w, k);
    RefetchFindsTheObject(w.json, w.keys[k]);
  }

  /** A registration for a copy already marked for deletion can happen, but only when the mark was
      first seen on the way, and then the key is queued again. */
  lemma RegisteringDeletedIsRequeued(w: World, k: Key)
    requires Reachable(w) && k in w.keys && Registering(w.keys[k].pc) && w.keys[k].pc.obj.deleting
    ensures w.keys[k].dirty
  {
    InvAt(w, k);
    assert FreshOk(w.keys[k]);
  }

  lemma AdvanceGrows(json: string -> bool, ks: KeyState, i: Input)
    requires KeyInv(json, ks)
    ensures Grows(ks, SchemaKey.Advance(json, ks, i))
  {
    AdvanceKeepsBound(json, ks, i);
    if ks.pc.CleanupFinalize? {
      FinalizersStored(json, ks, ks.pc.obj.finalizers - {FINALIZER});
      hide KeyInv, ApiUpdate, AdmitsUpdate;
    }
    hide KeyInv, ApiUpdate, ApiUpdateStatus, RegisteredStatus, FailedStatus;
  }

  lemma CallFrame(w: World, k: Key, outcome: Outcome, l: Key)
    requires Inv(w) && Enabled(w, Call(k, outcome)) && l in w.keys
    ensures var w' := Apply(w, Call(k, outcome));
            && l in w'.keys && Grows(w.keys[l], w'.keys[l])
            && w'.keys[l] == if l == k then SchemaKey.Advance(w.json, w.keys[k], InputFor(w, k, outcome)) else w.keys[l]
  {
    KeyOf(w, k);
    hide Inv, LinkInv;
    AdvanceGrows(w.json, w.keys[k], InputFor(w, k, outcome));
    hide KeyInv, SchemaKey.Advance, InputFor, RemotesAfter, LedgerAfter, AbandonedAfter, AcksAfter;
  }

  /** Actions other than calls leave every reconcile where it is, except that one may start or all may die. */
  lemma OtherFrame(w: World, a: Action, l: Key)
    requires Enabled(w, a) && !a.Call? && l in w.keys
    ensures var w' := Apply(w, a);
            && l in w'.keys && Grows(w.keys[l], w'.keys[l])
            && (w'.keys[l].pc == w.keys[l].pc || !HasObj(w'.keys[l].pc))
  {
    UserKeepsBound(w.json, w.keys[l]);
    hide MayCreate, MayUpdate, KeepsBound, WokenBy, Perform, Without;
  }

  /** A cleanup never deletes on behalf of an object what a later object of the same name registered. */
  lemma CleanupSparesLaterObjects(w: World, k: Key, b: Binding)
    requires Reachable(w) && k in w.keys && w.keys[k].pc.CleanupDelete? && b in w.ledger && b.key == k
    ensures b.inc <= w.keys[k].pc.obj.inc
  {
    InvAt(w, k);
    hide KeyInv, QuietInv, UrlInv, AckInv;
  }

  // ----- quiescence -----

  /** A registration that carries this version's text, type and references under its subject was answered
      at the URL with this id. */
  ghost predicate Acknowledged(w: World, k: Key, o: Schema, url: string, id: nat) {
    exists request :: Asks(request, o.spec) && Ack(k, o.inc, url, o.spec.subject, request, id) in w.acks
  }

  lemma AcknowledgedMeans(w: World, k: Key, o: Schema, url: string, id: nat)
    ensures Acknowledged(w, k, o, url, id) <==> Ack(k, o.inc, url, o.spec.subject, RequestOf(o.spec), id) in w.acks
  {
    forall request ensures Asks(request, o.spec) <==> request == RequestOf(o.spec) {
      RequestAsks(o.spec, request);
    }
    hide Asks, RequestOf;
  }

  /** A live Schema that is not being deleted and has no work pending is Ready for its current
      generation, and its id was answered to a request that carries exactly its current text, type and
      references. If its registry is in its own namespace and no event of that registry is under
      way, the answer came from the URL that registry has now. */
  lemma QuietIsSynchronised(w: World, k: Key)
    requires Reachable(w) && k in w.keys && Quiet(w.keys[k])
    requires Live(w.keys[k].slot).Some? && !Live(w.keys[k].slot).value.deleting
    ensures var o := Live(w.keys[k].slot).value;
            && Ready(o).Some? && Ready(o).value.status == IsTrue
            && o.status.observedGeneration == Ready(o).value.observedGeneration == o.generation
            && o.status.schemaId.Some?
            && exists url ::
                 && Acknowledged(w, k, o, url, o.status.schemaId.value)
                 && (var rk := Resolve(k, o.spec.registryRef);
                     rk.namespace == k.namespace && (rk in w.registries ==> Delivered(w.registries[rk])) ==>
                       rk in w.registries && Live(w.registries[rk]).Some? && Live(w.registries[rk]).value.url == url)
  {
    InvAt(w, k);
    var o := Live(w.keys[k].slot).value;
    assert VersionOk(w.json, w.keys[k].incs, |w.keys[k].slot.hist| - 1, o);
    assert QuietInv(w, k);
    hide KeyInv, LinkInv, FindCondition, CountKind;
    var url :| AnsweredAt(w, k, o, url);
    AcknowledgedMeans(w, k, o, url, o.status.schemaId.value);
    hide Acknowledged;
    var rk := Resolve(k, o.spec.registryRef);
    assert rk.namespace == k.namespace ==> LookupUrl(w, rk) == Some(url);
  }

  /** A Schema marked for deletion that still carries the finalizer always has work pending. */
  lemma CleanupIsPending(w: World, k: Key)
    requires Reachable(w) && k in w.keys && Live(w.keys[k].slot).Some?
    requires Live(w.keys[k].slot).value.deleting && FINALIZER in Live(w.keys[k].slot).value.finalizers
    ensures !Quiet(w.keys[k])
  {
    InvAt(w, k);
    hide KeyInv, Synchronised;
  }

  /** The branches that handle a vanished object after a re-fetch are never taken. */
  lemma RefetchNeverMisses(w: World, k: Key)
    requires Reachable(w) && k in w.keys
    requires w.keys[k].pc.Refetch? || w.keys[k].pc.StatusFetch? || w.keys[k].pc.FailFetch?
    ensures Cached(w.keys[k].slot).Some? && Cached(w.keys[k].slot).value.inc == w.keys[k].pc.obj.inc
  {
    InvAt(w, k);
    RefetchFindsTheObject(w.json, w.keys[k]);
  }

  // ----- versions -----

  /** The generation chain of every version ever stored, and how it grows from version to version of
      one object: what was observed never moves back, and once known the ids stay known. */
  lemma GenerationChain(w: World, k: Key, i: nat, j: nat)
    requires Reachable(w) && k in w.keys && i < j < |w.keys[k].slot.hist|
    requires var h := w.keys[k].slot.hist; h[i].Some? && h[j].Some? && h[i].value.inc == h[j].value.inc
    ensures var h := w.keys[k].slot.hist;
            && ChainOk(h[i].value) && ChainOk(h[j].value) && Follows(h[i].value, h[j].value)
  {
    InvAt(w, k);
    assert VersionOk(w.json, w.keys[k].incs, i, w.keys[k].slot.hist[i].value);
    assert VersionOk(w.json, w.keys[k].incs, j, w.keys[k].slot.hist[j].value);
  }

  /** The operator never edits user intent: the stored specification is the last one a user's
      accepted write carried, and no call of a reconcile changes it. */
  lemma IntentIsKept(w: World, k: Key, outcome: Outcome)
    requires Reachable(w) && k in w.keys && Live(w.keys[k].slot).Some?
    ensures Live(w.keys[k].slot).value.spec == w.keys[k].intent && SpecValid(w.json, w.keys[k].intent)
    ensures Enabled(w, Call(k, outcome)) ==>
              var s' := Apply(w, Call(k, outcome)).keys[k].slot;
              Live(s').Some? ==> Live(s').value.spec == Live(w.keys[k].slot).value.spec
  {
    InvAt(w, k);
    ReachableInv(w);
    var ks := w.keys[k];
    LiveIsOk(w.json, ks);
    assert IntentOk(ks);
    AdvanceKeepsIntent(w.json, ks, InputFor(w, k, outcome));
    hide KeyInv, LinkInv, Inv, Reachable;
    if Enabled(w, Call(k, outcome)) { CallFrame(w, k, outcome, k); }
    hide Apply, SchemaKey.Advance, InputFor;
  }

  lemma AdvanceKeepsIntent(json: string -> bool, ks: KeyState, i: Input)
    requires KeyInv(json, ks)
    ensures IntentOk(SchemaKey.Advance(json, ks, i)) && SchemaKey.Advance(json, ks, i).intent == ks.intent
  {
    AdvanceKeeps(json, ks, i);
    AdvanceIntent(json, ks, i);
    hide SchemaKey.Advance;
  }

  lemma AdvanceIntent(json: string -> bool, ks: KeyState, i: Input)
    ensures SchemaKey.Advance(json, ks, i).intent == ks.intent
  {
    hide ApiUpdate, ApiUpdateStatus, RegisteredStatus, FailedStatus;
  }

  /** The operator is never blocked by its own webhook: its finalizer updates fail only for being
      out of date. */
  lemma WebhookNeverBlocks(w: World, k: Key, finalizers: set<string>)
    requires Reachable(w) && k in w.keys && (w.keys[k].pc.AddFinalizer? || w.keys[k].pc.CleanupFinalize?)
    ensures var sent := w.keys[k].pc.obj.(finalizers := finalizers);
            ApiUpdate(w.json, w.keys[k].slot, sent).Some? <==> Current(w.keys[k].slot, sent)
  {
    InvAt(w, k);
    var ks := w.keys[k];
    if Current(ks.slot, ks.pc.obj) {
      CurrentMeansSame(w.json, ks);
      ObjIsOk(w.json, ks);
    }
    hide KeyInv, LinkInv, SpecValid, Store;
  }
}
