/** Cleanup among other writers: users and owners of other finalizers edit the object at any moment, so
    that the removal of the finalizer is rejected again and again, while everybody else goes about
    their own business. */
module CleanupRaces {
  import opened Kube
  import opened Api
  import opened Admission
  import opened Registry
  import opened Auth
  import opened SchemaKey
  import opened SchemaKeyProofs
  import opened Cluster
  import opened ClusterProofs
  import opened CallProofs
  import Cleanup

  /** What one cleanup is about. */
  datatype Goal = Goal(key: Key, inc: nat, subject: string, ref: RegistryRef, target: Option<string>)

  function GoalOf(w: World, k: Key, o: Schema): Goal {
    Goal(k, o.inc, o.spec.subject, o.spec.registryRef, UrlFor(w, k, o))
  }

  function EntriesAt(w: World, g: Goal): seq<Entry>
    requires g.target.Some?
  {
    Entries(RemoteAt(w, g.target.value), g.subject)
  }

  /** Anything may happen, except that the reference and the URL behind it stay as they are, nobody else
      touches the subject at that URL, the name is not reused, and credentials can be loaded. */
  ghost predicate Tolerated(w: World, g: Goal, a: Action)
    requires Enabled(w, a)
  {
    && LookupUrl(Apply(w, a), Resolve(g.key, g.ref)) == LookupUrl(w, Resolve(g.key, g.ref))
    && (g.target.Some? && !(a.Call? && a.key == g.key) ==> EntriesAt(Apply(w, a), g) == EntriesAt(w, g))
    && match a
       case UserCreate(l, _, _) => l != g.key
       case UserUpdate(l, spec, _) => l == g.key ==> spec.registryRef == g.ref
       case Call(l, outcome) => l == g.key && w.keys[l].pc.CleanupLoadAuth? ==> outcome.Done?
       case _ => true
  }

  ghost predicate RacingRun(w: World, g: Goal, run: seq<Action>)
    decreases |run|
  {
    run == [] || (Enabled(w, run[0]) && Tolerated(w, g, run[0]) && RacingRun(Apply(w, run[0]), g, run[1..]))
  }

  predicate Ours(o: Schema, g: Goal) {
    o.inc == g.inc && o.deleting && o.spec.subject == g.subject && o.spec.registryRef == g.ref
  }

  ghost predicate RacingKey(ks: KeyState, g: Goal, floor: nat) {
    && floor <= ks.slot.seen
    && (forall i :: floor <= i < |ks.slot.hist| && ks.slot.hist[i].Some? ==> Ours(ks.slot.hist[i].value, g))
    && (HasObj(ks.pc) ==> Cleaning(ks.pc) && Ours(ks.pc.obj, g))
    && (ks.pc.CleanupLoadAuth? || ks.pc.CleanupDelete? ==> g.target == Some(ks.pc.url))
    && (ks.pc.CleanupFinalize? ==> ks.pc.cleaned == g.target)
  }

  /** The subject is as it was at the start or gone, and gone it is before the finalizer is. */
  ghost predicate SubjectOnTheWay(ks: KeyState, g: Goal, now: seq<Entry>, before: seq<Entry>) {
    && (now == before || now == [])
    && (ks.pc.CleanupFinalize? || !HasFinalizer(Live(ks.slot), g.inc) ==> now == [])
  }

  ghost predicate Racing(w: World, g: Goal, floor: nat, before: seq<Entry>) {
    && g.key in w.keys
    && RacingKey(w.keys[g.key], g, floor)
    && LookupUrl(w, Resolve(g.key, g.ref)) == g.target
    && (g.target.Some? ==> SubjectOnTheWay(w.keys[g.key], g, EntriesAt(w, g), before))
  }

  lemma AppendKeepsRacing(ks: KeyState, s: Slot<Schema>, g: Goal, floor: nat)
    requires RacingKey(ks, g, floor) && ks.slot.seen <= s.seen
    requires s.hist == ks.slot.hist ||
             (|s.hist| == |ks.slot.hist| + 1 && ks.slot.hist <= s.hist && (Live(s).Some? ==> Ours(Live(s).value, g)))
    ensures RacingKey(ks.(slot := s), g, floor)
  {
  }

  /** The removal of the finalizer, accepted or rejected. */
  lemma FinalizeRaces(json: string -> bool, ks: KeyState, i: Input, g: Goal, floor: nat)
    requires KeyInv(json, ks) && RacingKey(ks, g, floor) && ks.pc.CleanupFinalize?
    ensures RacingKey(SchemaKey.Advance(json, ks, i), g, floor)
  {
    var o := ks.pc.obj;
    var sent := o.(finalizers := o.finalizers - {FINALIZER});
    FinalizersStored(json, ks, sent.finalizers);
    AdvanceSlot(json, ks, i);
    var n := SchemaKey.Advance(json, ks, i);
    assert n.pc.Idle? by { hide KeyInv, RacingKey, ApiUpdate; }
    hide KeyInv, ApiUpdate, SchemaKey.Advance;
    if n.slot != ks.slot {
      assert n.slot == Store(ks.slot, sent);
      AppendKeepsRacing(ks, n.slot, g, floor);
    }
  }

  lemma OwnCallRaces(json: string -> bool, ks: KeyState, i: Input, g: Goal, floor: nat)
    requires KeyInv(json, ks) && RacingKey(ks, g, floor)
    requires ks.pc.CleanupGetRegistry? ==> i.url == g.target
    requires ks.pc.CleanupLoadAuth? ==> i.outcome.Done?
    ensures RacingKey(SchemaKey.Advance(json, ks, i), g, floor)
    ensures var n := SchemaKey.Advance(json, ks, i);
            && (n.pc.CleanupFinalize? && g.target.Some? ==> ks.pc.CleanupDelete? && i.outcome.Done?)
            && (!ks.pc.CleanupFinalize? ==> n.slot == ks.slot)
  {
    if ks.pc.CleanupFinalize? {
      FinalizeRaces(json, ks, i, g, floor);
      hide RacingKey;
    }
    hide KeyInv, ApiUpdate, ApiUpdateStatus, RegisteredStatus, FailedStatus;
  }

  /** What the cleanup's own calls do to the subject. */
  lemma OwnCallEntries(w: World, g: Goal, floor: nat, outcome: Outcome)
    requires g.key in w.keys && RacingKey(w.keys[g.key], g, floor) && g.target.Some?
    ensures var pc := w.keys[g.key].pc;
            var r := RemotesAfter(w, pc, outcome);
            var now := Entries(if g.target.value in r then r[g.target.value] else EMPTY, g.subject);
            && (now == EntriesAt(w, g) || now == [])
            && (pc.CleanupDelete? && outcome.Done? ==> now == [])
            && (EntriesAt(w, g) == [] ==> now == [])
  {
  }

  lemma OwnCallKeepsRacing(w: World, g: Goal, outcome: Outcome, floor: nat, before: seq<Entry>)
    requires Inv(w) && Racing(w, g, floor, before) && Enabled(w, Call(g.key, outcome)) &&
             Tolerated(w, g, Call(g.key, outcome))
    ensures Racing(Apply(w, Call(g.key, outcome)), g, floor, before)
  {
    var ks, i := w.keys[g.key], InputFor(w, g.key, outcome);
    KeyOf(w, g.key);
    CallSeen(w, g.key, outcome);
    assert ks.pc.CleanupGetRegistry? ==> i.url == g.target;
    hide Inv, KeyInv, LinkInv, Apply, SchemaKey.Advance, InputFor;
    OwnCallRaces(w.json, ks, i, g, floor);
    if g.target.Some? { OwnCallEntries(w, g, floor, outcome); }
    hide RacingKey, RemotesAfter, Delete, Register;
  }

  /** What others, and the queue, do to the key itself. */
  lemma OtherActionRaces(w: World, g: Goal, a: Action, floor: nat)
    requires Enabled(w, a) && Tolerated(w, g, a) && !(a.Call? && a.key == g.key)
    requires g.key in w.keys && RacingKey(w.keys[g.key], g, floor)
    ensures var w' := Apply(w, a);
            && g.key in w'.keys && RacingKey(w'.keys[g.key], g, floor)
            && (w'.keys[g.key].pc == w.keys[g.key].pc || !HasObj(w'.keys[g.key].pc))
            && (HasFinalizer(Live(w.keys[g.key].slot), g.inc) ==> HasFinalizer(Live(w'.keys[g.key].slot), g.inc))
  {
    hide LookupUrl, EntriesAt, WokenBy, Perform, Without, SpecValid;
    var ks := w.keys[g.key];
    match a
    case UserUpdate(l, spec, fs) =>
      if l == g.key {
        UpdateRaces(w.json, ks, spec, fs, g, floor);
      }
      hide RacingKey, SchemaKey.Update, MayUpdate;
    case _ =>
  }

  /** Somebody edits the object under the cleanup's hands. */
  lemma UpdateRaces(json: string -> bool, ks: KeyState, spec: SchemaSpec, fs: set<string>, g: Goal, floor: nat)
    requires RacingKey(ks, g, floor) && MayUpdate(json, ks, spec, fs) && spec.registryRef == g.ref
    ensures var n := SchemaKey.Update(ks, spec, fs);
            && RacingKey(n, g, floor) && n.pc == ks.pc
            && (HasFinalizer(Live(ks.slot), g.inc) ==> HasFinalizer(Live(n.slot), g.inc))
  {
    var n := SchemaKey.Update(ks, spec, fs);
    assert Live(ks.slot) == ks.slot.hist[|ks.slot.hist| - 1];
    AppendKeepsRacing(ks, n.slot, g, floor);
    hide SpecValid;
  }

  lemma OtherActionKeepsRacing(w: World, g: Goal, a: Action, floor: nat, before: seq<Entry>)
    requires Inv(w) && Racing(w, g, floor, before) && Enabled(w, a) && Tolerated(w, g, a) &&
             !(a.Call? && a.key == g.key)
    ensures Racing(Apply(w, a), g, floor, before)
  {
    hide Inv, RacingKey, LookupUrl, HasFinalizer;
    OtherActionRaces(w, g, a, floor);
    hide Apply, Enabled;
  }

  lemma {:induction false} RunKeepsRacing(w: World, g: Goal, run: seq<Action>, floor: nat, before: seq<Entry>)
    requires Inv(w) && Racing(w, g, floor, before) && RacingRun(w, g, run)
    ensures ValidRun(w, run) && Racing(Run(w, run), g, floor, before)
    decreases |run|
  {
    hide Inv, Racing, Tolerated;
    if run != [] {
      var a := run[0];
      if a.Call? && a.key == g.key {
        OwnCallKeepsRacing(w, g, a.outcome, floor, before);
      } else {
        OtherActionKeepsRacing(w, g, a, floor, before);
      }
      ApplyKeeps(w, a);
      RunKeepsRacing(Apply(w, a), g, run[1..], floor, before);
    }
  }

  /** Cleanup survives every race: whatever edits, conflicts, crashes, lost answers and stale reads there
      have been, either the finalizer is still there and the subject is untouched or deleted, or the
      finalizer is gone and the subject is deleted. */
  lemma CleanupConverges(w: World, k: Key, run: seq<Action>)
    requires Reachable(w) && Cleanup.Pending(w, k) && RacingRun(w, GoalOf(w, k, Live(w.keys[k].slot).value), run)
    ensures ValidRun(w, run) && k in Run(w, run).keys
    ensures var g := GoalOf(w, k, Live(w.keys[k].slot).value);
            var w' := Run(w, run);
            g.target.Some? ==>
              if HasFinalizer(Live(w'.keys[k].slot), g.inc) then EntriesAt(w', g) == EntriesAt(w, g) ||
                EntriesAt(w', g) == []
              else EntriesAt(w', g) == []
  {
    ReachableInv(w);
    var ks := w.keys[k];
    var g := GoalOf(w, k, Live(ks.slot).value);
    var before := if g.target.Some? then EntriesAt(w, g) else [];
    hide Inv, Reachable;
    assert Racing(w, g, ks.slot.seen, before);
    RunKeepsRacing(w, g, run, ks.slot.seen, before);
    hide RacingKey, EntriesAt;
  }

  /** Such races are real: an edit between the DELETE and the removal defeats the removal, the finalizer
      stays, and a retry is pending. */
  lemma EditDefeatsRemoval(json: string -> bool, ks: KeyState, spec: SchemaSpec, fs: set<string>, i: Input)
    requires KeyInv(json, ks) && ks.pc.CleanupFinalize? && Live(ks.slot) == Some(ks.pc.obj)
    requires MayUpdate(json, ks, spec, fs) && (spec != ks.pc.obj.spec || fs != ks.pc.obj.finalizers)
    ensures var edited := SchemaKey.Update(ks, spec, fs);
            var n := SchemaKey.Advance(json, edited, i);
            && n.slot == edited.slot && n.pc.Idle? && n.timer
            && HasFinalizer(Live(n.slot), ks.pc.obj.inc)
  {
    var o := ks.pc.obj;
    ObjIsOk(json, ks);
    assert ThreadOk(ks);
    assert VersionOk(json, ks.incs, |ks.slot.hist| - 1, o);
    hide KeyInv, SpecValid, ThreadOk, VersionOk;
    assert Live(SchemaKey.Update(ks, spec, fs).slot).value.rv != o.rv;
  }

  lemma Prepended(w: World, a: Action, rest: seq<Action>)
    requires Enabled(w, a) && ValidRun(Apply(w, a), rest)
    ensures ValidRun(w, [a] + rest) && Run(w, [a] + rest) == Run(Apply(w, a), rest)
  {
    assert ([a] + rest)[1..] == rest;
    hide Enabled, Apply;
  }

  /** And whatever state the races have led to, the operator can still finish. */
  lemma CleanupCanFinish(w: World, k: Key) returns (run: seq<Action>)
    requires Reachable(w) && k in w.keys && Live(w.keys[k].slot).Some?
    requires Live(w.keys[k].slot).value.deleting && FINALIZER in Live(w.keys[k].slot).value.finalizers
    ensures ValidRun(w, run) && k in Run(w, run).keys
    ensures !HasFinalizer(Live(Run(w, run).keys[k].slot), Live(w.keys[k].slot).value.inc)
  {
    var w1 := Apply(w, Restart);
    Extend(w, Restart);
    assert w1.keys[k].slot == w.keys[k].slot && w1.keys[k].pc.Idle?;
    hide Reachable, Apply, Enabled;
    var rest := IdleCanFinish(w1, k);
    Prepended(w, Restart, rest);
    run := [Restart] + rest;
  }

  lemma IdleCanFinish(w: World, k: Key) returns (run: seq<Action>)
    requires Reachable(w) && k in w.keys && w.keys[k].pc.Idle? && Live(w.keys[k].slot).Some?
    requires Live(w.keys[k].slot).value.deleting && FINALIZER in Live(w.keys[k].slot).value.finalizers
    ensures ValidRun(w, run) && k in Run(w, run).keys
    ensures !HasFinalizer(Live(Run(w, run).keys[k].slot), Live(w.keys[k].slot).value.inc)
  {
    hide Reachable, Apply, Enabled;
    if Delivered(w.keys[k].slot) {
      run := Finished(w, k);
    } else {
      var deliver := Action.Deliver(k, |w.keys[k].slot.hist| - 1);
      CatchesUp(w, k);
      Extend(w, deliver);
      var rest := Finished(Apply(w, deliver), k);
      Prepended(w, deliver, rest);
      run := [deliver] + rest;
    }
  }

  lemma CatchesUp(w: World, k: Key)
    requires k in w.keys && !Delivered(w.keys[k].slot)
    ensures var a := Action.Deliver(k, |w.keys[k].slot.hist| - 1);
            && Enabled(w, a) && k in Apply(w, a).keys
            && Apply(w, a).keys[k].pc == w.keys[k].pc && Delivered(Apply(w, a).keys[k].slot)
            && Apply(w, a).keys[k].slot.hist == w.keys[k].slot.hist
  {
  }

  lemma Finished(w: World, k: Key) returns (run: seq<Action>)
    requires Reachable(w) && Cleanup.Pending(w, k)
    ensures ValidRun(w, run) && k in Run(w, run).keys
    ensures !HasFinalizer(Live(Run(w, run).keys[k].slot), Live(w.keys[k].slot).value.inc)
  {
    hide Reachable, Enabled, Apply;
    run := Cleanup.CleanRun(w, k);
  }
}
