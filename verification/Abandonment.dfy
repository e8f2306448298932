/** What "abandoned" means: exactly that the object a registration was made for is gone, or has lost the
    finalizer for good. */
module Abandonment {
  import opened Kube
  import opened Admission
  import opened Registry
  import opened SchemaKey
  import opened SchemaKeyProofs
  import opened Cluster
  import opened ClusterProofs
  import opened CallProofs
  import opened Theorems

  /** Object number `inc` has existed, and if it still does, it is being deleted without the finalizer. */
  ghost predicate Unattended(ks: KeyState, inc: nat) {
    && inc < ks.incs
    && (Live(ks.slot).Some? && Live(ks.slot).value.inc == inc ==>
          Live(ks.slot).value.deleting && FINALIZER !in Live(ks.slot).value.finalizers)
  }

  lemma UserKeepsUnattended(json: string -> bool, ks: KeyState, inc: nat)
    requires Unattended(ks, inc)
    ensures forall spec, fs :: MayCreate(json, ks, spec) ==> Unattended(Create(ks, spec, fs), inc)
    ensures forall spec, fs :: MayUpdate(json, ks, spec, fs) ==> Unattended(Update(ks, spec, fs), inc)
    ensures Live(ks.slot).Some? ==> Unattended(DeleteByUser(ks), inc)
  {
    hide SpecValid, AdmitsUpdate;
  }

  lemma StoreKeepsUnattended(ks: KeyState, o: Schema, inc: nat)
    requires Unattended(ks, inc) && Live(ks.slot).Some?
    requires var l := Live(ks.slot).value;
             o.inc == l.inc && o.deleting == l.deleting && (l.deleting ==> o.finalizers <= l.finalizers)
    ensures Unattended(ks.(slot := Store(ks.slot, o)), inc)
  {
  }

  /** No call of the operator attends to such an object again. */
  lemma AdvanceKeepsUnattended(json: string -> bool, ks: KeyState, i: Input, inc: nat)
    requires KeyInv(json, ks) && Unattended(ks, inc)
    ensures Unattended(SchemaKey.Advance(json, ks, i), inc)
  {
    var ks' := SchemaKey.Advance(json, ks, i);
    AdvanceSlot(json, ks, i);
    AdvanceIncs(json, ks, i);
    assert HasObj(ks.pc) && ks.pc.AddFinalizer? ==> !ks.pc.obj.deleting;
    hide KeyInv, RegisteredStatus, FailedStatus, ApiUpdate, SchemaKey.Advance;
    if ks'.slot != ks.slot {
      match ks.pc
      case AddFinalizer(o) =>
        FinalizersStored(json, ks, o.finalizers + {FINALIZER});
        StoreKeepsUnattended(ks, o.(finalizers := o.finalizers + {FINALIZER}), inc);
      case CleanupFinalize(o, _) =>
        FinalizersStored(json, ks, o.finalizers - {FINALIZER});
        StoreKeepsUnattended(ks, o.(finalizers := o.finalizers - {FINALIZER}), inc);
      case StatusWrite(o, _, id, version, _, now) =>
        StoreKeepsUnattended(ks, Live(ks.slot).value.(status := RegisteredStatus(o, id, version, now)), inc);
      case FailWrite(o, reason, message, now) =>
        StoreKeepsUnattended(ks, Live(ks.slot).value.(status := FailedStatus(o, reason, message, now)), inc);
    }
    hide Store;
  }

  lemma AdvanceIncs(json: string -> bool, ks: KeyState, i: Input)
    ensures SchemaKey.Advance(json, ks, i).incs == ks.incs
  {
    hide ApiUpdate, ApiUpdateStatus, RegisteredStatus, FailedStatus;
  }

  /** The removal of the finalizer leaves its object unattended. */
  lemma RemovalUnattends(w: World, k: Key, outcome: Outcome)
    requires k in w.keys && KeyInv(w.json, w.keys[k]) && RemovesFinalizer(w, k, outcome)
    ensures Live(w.keys[k].slot) == Some(w.keys[k].pc.obj) && FINALIZER in w.keys[k].pc.obj.finalizers
    ensures Unattended(SchemaKey.Advance(w.json, w.keys[k], InputFor(w, k, outcome)), w.keys[k].pc.obj.inc)
  {
    var ks := w.keys[k];
    var sent := ks.pc.obj.(finalizers := ks.pc.obj.finalizers - {FINALIZER});
    FinalizersStored(w.json, ks, sent.finalizers);
    ObjIsOk(w.json, ks);
    assert ThreadOk(ks);
    assert SchemaKey.Advance(w.json, ks, InputFor(w, k, outcome)).slot ==
           Store(ks.slot, sent) by { hide KeyInv, ApiUpdate, Store; }
    AdvanceIncs(w.json, ks, InputFor(w, k, outcome));
    hide KeyInv, ApiUpdate, SchemaKey.Advance;
  }

  ghost predicate AllUnattended(w: World) {
    forall b :: b in w.abandoned ==> b.key in w.keys && Unattended(w.keys[b.key], b.inc)
  }

  lemma CallStaysUnattended(w: World, l: Key, outcome: Outcome, k: Key, inc: nat)
    requires Inv(w) && Enabled(w, Call(l, outcome)) && k in w.keys && Unattended(w.keys[k], inc)
    ensures k in Apply(w, Call(l, outcome)).keys && Unattended(Apply(w, Call(l, outcome)).keys[k], inc)
  {
    CallFrame(w, l, outcome, k);
    KeyOf(w, k);
    hide Inv, KeyInv, LinkInv, Grows, Apply, Enabled, Unattended, SchemaKey.Advance, InputFor;
    if l == k { AdvanceKeepsUnattended(w.json, w.keys[k], InputFor(w, k, outcome), inc); }
  }

  lemma OtherStaysUnattended(w: World, a: Action, k: Key, inc: nat)
    requires Enabled(w, a) && !a.Call? && k in w.keys && Unattended(w.keys[k], inc)
    ensures k in Apply(w, a).keys && Unattended(Apply(w, a).keys[k], inc)
  {
    UserKeepsUnattended(w.json, w.keys[k], inc);
    hide MayCreate, MayUpdate, SchemaKey.Create, SchemaKey.Update, SchemaKey.DeleteByUser, WokenBy, Perform, Without;
  }

  /** Every action keeps an unattended object so. */
  lemma StaysUnattended(w: World, a: Action, k: Key, inc: nat)
    requires Inv(w) && Enabled(w, a) && k in w.keys && Unattended(w.keys[k], inc)
    ensures k in Apply(w, a).keys && Unattended(Apply(w, a).keys[k], inc)
  {
    hide Inv, Apply, Enabled, Unattended;
    if a.Call? {
      CallStaysUnattended(w, a.key, a.outcome, k, inc);
    } else {
      OtherStaysUnattended(w, a, k, inc);
    }
  }

  lemma StepKeepsAllUnattended(w: World, a: Action)
    requires Inv(w) && Enabled(w, a) && AllUnattended(w)
    ensures AllUnattended(Apply(w, a))
  {
    var w' := Apply(w, a);
    forall b | b in w'.abandoned ensures b.key in w'.keys && Unattended(w'.keys[b.key], b.inc) {
      if b in w.abandoned {
        hide Apply, Enabled, Inv;
        StaysUnattended(w, a, b.key, b.inc);
      } else {
        NewlyAbandoned(w, a, b);
        KeyOf(w, a.key);
        CallFrame(w, a.key, a.outcome, a.key);
        hide Apply, Enabled, Inv, Grows, Unattended;
        RemovalUnattends(w, a.key, a.outcome);
      }
    }
  }

  lemma NewlyAbandoned(w: World, a: Action, b: Binding)
    requires Enabled(w, a) && b !in w.abandoned && b in Apply(w, a).abandoned
    ensures a.Call? && a.key == b.key && RemovesFinalizer(w, a.key, a.outcome) && w.keys[a.key].pc.obj.inc == b.inc
  {
    hide SchemaKey.Advance, ApiUpdate, RemotesAfter, LedgerAfter, AcksAfter, Wake, MayUpdate, MayCreate;
  }

  lemma {:induction false} RunKeepsAllUnattended(w: World, run: seq<Action>)
    requires Inv(w) && AllUnattended(w) && ValidRun(w, run)
    ensures AllUnattended(Run(w, run))
    decreases |run|
  {
    hide Inv, AllUnattended;
    if run != [] {
      StepKeepsAllUnattended(w, run[0]);
      ApplyKeeps(w, run[0]);
      RunKeepsAllUnattended(Apply(w, run[0]), run[1..]);
    }
  }

  lemma ReachableUnattended(w: World)
    requires Reachable(w)
    ensures AllUnattended(w)
  {
    var start, run :| Initial(start) && Reaches(start, run, w);
    InitialInv(start);
    assert AllUnattended(start);
    hide Inv, Initial, AllUnattended;
    RunKeepsAllUnattended(start, run);
  }

  /** In every reachable state a registration that still exists is abandoned if and only if its object
      is not there any more with the finalizer and the subject: nothing is written off that somebody
      answers for, and nothing unanswered for is overlooked. */
  lemma AbandonedMeansUnattended(w: World, b: Binding)
    requires Reachable(w) && b in w.ledger
    ensures b in w.abandoned <==> !Bound(w.keys, b)
  {
    Conservation(w, b);
    ReachableUnattended(w);
    hide Reachable;
  }
}
