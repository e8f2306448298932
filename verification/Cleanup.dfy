/** Cleanup when nobody else writes: crashes, lost answers and stale reads between the DELETE and the
    removal of the finalizer all lead to the very state that one undisturbed cleanup reaches. */
module Cleanup {
  import opened Kube
  import opened Admission
  import opened Registry
  import opened SchemaKey
  import opened SchemaKeyProofs
  import opened Cluster
  import opened Theorems

  /** A deletion that the cache has caught up with and no reconcile has taken up yet. */
  ghost predicate Pending(w: World, k: Key) {
    && k in w.keys
    && w.keys[k].pc.Idle? && Delivered(w.keys[k].slot)
    && Live(w.keys[k].slot).Some?
    && Live(w.keys[k].slot).value.deleting && FINALIZER in Live(w.keys[k].slot).value.finalizers
  }

  /** Only this key's reconciles, its queue and informer, the clock and restarts act, and
      credentials can be loaded. */
  ghost predicate Undisturbed(w: World, k: Key, a: Action) {
    match a
    case Call(l, outcome) => l == k && (k in w.keys && w.keys[k].pc.CleanupLoadAuth? ==> outcome.Done?)
    case Deliver(_, _) => true
    case Fire(_) => true
    case Dequeue(l) => l == k
    case Tick => true
    case Restart => true
    case _ => false
  }

  ghost predicate CleanupRun(w: World, k: Key, run: seq<Action>)
    decreases |run|
  {
    run == [] || (Enabled(w, run[0]) && Undisturbed(w, k, run[0]) && CleanupRun(Apply(w, run[0]), k, run[1..]))
  }

  lemma {:induction false} CleanupRunIsValid(w: World, k: Key, run: seq<Action>)
    requires CleanupRun(w, k, run)
    ensures ValidRun(w, run)
    decreases |run|
  {
    hide Undisturbed, Enabled, Apply;
    if run != [] { CleanupRunIsValid(Apply(w, run[0]), k, run[1..]); }
  }

  /** Where the subject will be deleted: nowhere when the registry cannot be found. */
  function Target(w: World, k: Key, o: Schema): Option<string> {
    UrlFor(w, k, o)
  }

  function RemotesCleaned(w: World, target: Option<string>, subject: string): map<string, Registry> {
    if target.None? then w.remotes else w.remotes[target.value := Delete(RemoteAt(w, target.value), subject)]
  }

  function Released(o: Schema): Schema {
    o.(finalizers := o.finalizers - {FINALIZER})
  }

  /** The object's history when the finalizer has gone. */
  function HistoryReleased(h: seq<Option<Schema>>, o: Schema): seq<Option<Schema>> {
    h + [if Released(o).finalizers == {} then None else Some(Released(o).(rv := |h|))]
  }

  /** Before the finalizer goes the registry is as it was or already cleaned; afterwards it is
      cleaned. Nothing else is possible. */
  ghost predicate OnTheWay(w: World, w': World, k: Key, o: Schema) {
    && k in w'.keys && k in w.keys
    && w'.registries == w.registries
    && KeyOnTheWay(w'.keys[k], w.keys[k].slot.hist, o, Target(w, k, o))
    && (w'.remotes == w.remotes || w'.remotes == RemotesCleaned(w, Target(w, k, o), o.spec.subject))
    && (w'.keys[k].pc.CleanupFinalize? || w'.keys[k].slot.hist != w.keys[k].slot.hist ==>
          w'.remotes == RemotesCleaned(w, Target(w, k, o), o.spec.subject))
  }

  ghost predicate KeyOnTheWay(ks: KeyState, h: seq<Option<Schema>>, o: Schema, target: Option<string>) {
    && (ks.slot.hist == h || ks.slot.hist == HistoryReleased(h, o))
    && |h| - 1 <= ks.slot.seen
    && (HasObj(ks.pc) ==> Cleaning(ks.pc) && ks.pc.obj == o)
    && (ks.pc.CleanupLoadAuth? || ks.pc.CleanupDelete? ==> target == Some(ks.pc.url))
    && (ks.pc.CleanupFinalize? ==> ks.pc.cleaned == target)
  }

  ghost predicate Starting(json: string -> bool, h: seq<Option<Schema>>, o: Schema) {
    && |h| > 0 && h[|h| - 1] == Some(o)
    && o.rv == |h| - 1 && o.deleting && FINALIZER in o.finalizers && SpecValid(json, o.spec)
  }

  /** One call of the reconcile on the key. */
  lemma KeyStepOnTheWay(json: string -> bool, ks: KeyState, i: Input, h: seq<Option<Schema>>, o: Schema,
      target: Option<string>)
    requires Starting(json, h, o) && KeyOnTheWay(ks, h, o, target) && ks.slot.seen < |ks.slot.hist|
    requires ks.pc.CleanupGetRegistry? ==> i.url == target
    requires ks.pc.CleanupLoadAuth? ==> i.outcome.Done?
    ensures var n := SchemaKey.Advance(json, ks, i);
            && KeyOnTheWay(n, h, o, target)
            && (n.pc.CleanupFinalize? ==>
                 (ks.pc.CleanupDelete? && i.outcome.Done?) || (ks.pc.CleanupGetRegistry? && target.None?))
            && (n.slot.hist != h ==> ks.slot.hist != h || ks.pc.CleanupFinalize?)
  {
    hide SpecValid;
    if ks.pc.CleanupFinalize? { ReleaseEffect(json, ks, h, o); }
    hide ApiUpdate, ApiUpdateStatus, RegisteredStatus, FailedStatus;
  }

  /** Removing the finalizer succeeds once, and is rejected as out of date ever after. */
  lemma ReleaseEffect(json: string -> bool, ks: KeyState, h: seq<Option<Schema>>, o: Schema)
    requires Starting(json, h, o) && (ks.slot.hist == h || ks.slot.hist == HistoryReleased(h, o))
    ensures ks.slot.hist == h ==>
              ApiUpdate(json, ks.slot, Released(o)) == Some(Slot(HistoryReleased(h, o), ks.slot.seen))
    ensures ks.slot.hist != h ==> ApiUpdate(json, ks.slot, Released(o)).None?
  {
    hide SpecValid;
    assert FINALIZER !in Released(o).finalizers;
  }

  lemma RemotesOnTheWay(w: World, w': World, k: Key, o: Schema, outcome: Outcome)
    requires OnTheWay(w, w', k, o)
    ensures var r := RemotesAfter(w', w'.keys[k].pc, outcome);
            && (r == w'.remotes || r == RemotesCleaned(w, Target(w, k, o), o.spec.subject))
            && (w'.keys[k].pc.CleanupDelete? && outcome.Done? ==>
                 r == RemotesCleaned(w, Target(w, k, o), o.spec.subject))
            && (w'.remotes == RemotesCleaned(w, Target(w, k, o), o.spec.subject) ==> r == w'.remotes)
  {
    var target := Target(w, k, o);
    if w'.keys[k].pc.CleanupDelete? {
      var url := target.value;
      DeleteIsIdempotent(RemoteAt(w, url), o.spec.subject, "");
      var cleaned := RemotesCleaned(w, target, o.spec.subject);
      assert w.remotes[url := Delete(RemoteAt(w, url), o.spec.subject)] == cleaned;
      if w'.remotes == cleaned {
        assert RemoteAt(w', url) == Delete(RemoteAt(w, url), o.spec.subject);
        assert cleaned[url := cleaned[url]] == cleaned;
      }
      hide Delete;
    }
  }

  lemma CallOnTheWay(w: World, w': World, k: Key, o: Schema, outcome: Outcome)
    requires OnTheWay(w, w', k, o) && k in w.keys && Starting(w.json, w.keys[k].slot.hist, o) && w'.json == w.json
    requires Enabled(w', Call(k, outcome)) && Undisturbed(w', k, Call(k, outcome))
    ensures OnTheWay(w, Apply(w', Call(k, outcome)), k, o)
  {
    var ks := w'.keys[k];
    assert ks.pc.CleanupGetRegistry? ==> InputFor(w', k, outcome).url == Target(w, k, o);
    KeyStepOnTheWay(w.json, ks, InputFor(w', k, outcome), w.keys[k].slot.hist, o, Target(w, k, o));
    RemotesOnTheWay(w, w', k, o, outcome);
    hide SchemaKey.Advance, InputFor, KeyOnTheWay, Starting, RemotesAfter, LedgerAfter, AbandonedAfter, AcksAfter,
         Target, HistoryReleased;
  }

  lemma QueueOnTheWay(w: World, w': World, k: Key, o: Schema, a: Action)
    requires OnTheWay(w, w', k, o) && !a.Call?
    requires Enabled(w', a) && Undisturbed(w', k, a)
    ensures OnTheWay(w, Apply(w', a), k, o)
  {
    hide HistoryReleased, Target, RemotesCleaned;
  }

  lemma ApplyKeepsJson(w: World, a: Action)
    requires Enabled(w, a)
    ensures Apply(w, a).json == w.json
  {
    hide MayCreate, MayUpdate;
  }

  lemma {:induction false} RunOnTheWay(w: World, w': World, k: Key, o: Schema, run: seq<Action>)
    requires OnTheWay(w, w', k, o) && k in w.keys && Starting(w.json, w.keys[k].slot.hist, o) && w'.json == w.json
    requires CleanupRun(w', k, run) && ValidRun(w', run)
    ensures OnTheWay(w, Run(w', run), k, o)
    decreases |run|
  {
    if run != [] {
      ApplyKeepsJson(w', run[0]);
      hide OnTheWay, Starting;
      if run[0].Call? {
        CallOnTheWay(w, w', k, o, run[0].outcome);
      } else {
        QueueOnTheWay(w, w', k, o, run[0]);
      }
      hide Apply, Enabled, Undisturbed;
      RunOnTheWay(w, Apply(w', run[0]), k, o, run[1..]);
    }
  }

  /** With nobody else writing: after any number of crashes, lost answers and stale reads, either the
      finalizer is still there and the registry is untouched or already cleaned, or the finalizer
      is gone and both the object's history and the registry are what one clean run makes of them. */
  lemma CleanupAlone(w: World, k: Key, run: seq<Action>)
    requires Reachable(w) && Pending(w, k) && CleanupRun(w, k, run)
    ensures ValidRun(w, run) && k in Run(w, run).keys
    ensures var o := Live(w.keys[k].slot).value;
            var cleaned := RemotesCleaned(w, Target(w, k, o), o.spec.subject);
            var w' := Run(w, run);
            || (w'.keys[k].slot.hist == w.keys[k].slot.hist && (w'.remotes == w.remotes || w'.remotes == cleaned))
            || (w'.keys[k].slot.hist == HistoryReleased(w.keys[k].slot.hist, o) && w'.remotes == cleaned)
  {
    CleanupRunIsValid(w, k, run);
    InvAt(w, k);
    LiveIsOk(w.json, w.keys[k]);
    var o := Live(w.keys[k].slot).value;
    hide KeyInv, LinkInv, Reachable, SpecValid, ChainOk;
    assert OnTheWay(w, w, k, o);
    assert Starting(w.json, w.keys[k].slot.hist, o);
    RunOnTheWay(w, w, k, o, run);
    hide RemotesCleaned, HistoryReleased, Target;
  }

  // ----- the clean run -----

  function CallsLeft(pc: Pc): nat {
    match pc
    case Start => 5
    case CleanupGetRegistry(_) => 4
    case CleanupLoadAuth(_, _) => 3
    case CleanupDelete(_, _) => 2
    case CleanupFinalize(_, _) => 1
    case _ => 0
  }

  lemma CleanCall(json: string -> bool, ks: KeyState, i: Input, h: seq<Option<Schema>>, o: Schema)
    requires Starting(json, h, o) && ks.slot.hist == h && ks.slot.seen == |h| - 1 && i.outcome.Done?
    requires (Cleaning(ks.pc) && ks.pc.obj == o) || ks.pc.Start?
    ensures var n := SchemaKey.Advance(json, ks, i);
            if ks.pc.CleanupFinalize? then n.slot.hist == HistoryReleased(h, o)
            else n.slot == ks.slot && CallsLeft(n.pc) < CallsLeft(ks.pc) && Cleaning(n.pc) && n.pc.obj == o
  {
    if ks.pc.CleanupFinalize? { ReleaseEffect(json, ks, h, o); }
    hide ApiUpdate, HistoryReleased, SpecValid;
  }

  lemma {:induction false} CleanCalls(w: World, k: Key, o: Schema) returns (run: seq<Action>)
    requires k in w.keys && Starting(w.json, w.keys[k].slot.hist, o) && Delivered(w.keys[k].slot)
    requires (Cleaning(w.keys[k].pc) && w.keys[k].pc.obj == o) || w.keys[k].pc.Start?
    ensures CleanupRun(w, k, run) && ValidRun(w, run)
    ensures k in Run(w, run).keys && Run(w, run).keys[k].slot.hist == HistoryReleased(w.keys[k].slot.hist, o)
    decreases CallsLeft(w.keys[k].pc)
  {
    var a := Call(k, Done);
    var w1 := Apply(w, a);
    CleanCall(w.json, w.keys[k], InputFor(w, k, Done), w.keys[k].slot.hist, o);
    assert w1.json == w.json && w1.keys[k] == SchemaKey.Advance(w.json, w.keys[k], InputFor(w, k, Done));
    assert Enabled(w, a) && Undisturbed(w, k, a);
    if w.keys[k].pc.CleanupFinalize? {
      run := [a];
      assert run[1..] == [];
      assert Run(w1, []) == w1;
    } else {
      hide Starting, HistoryReleased, InputFor, SchemaKey.Advance, RemotesAfter, LedgerAfter, AcksAfter, AbandonedAfter;
      var rest := CleanCalls(w1, k, o);
      run := [a] + rest;
      assert run[1..] == rest;
    }
  }

  /** The undisturbed cleanup exists: from every pending deletion the operator's own steps, all
      answered, lead to the removal of the finalizer. */
  lemma CleanRun(w: World, k: Key) returns (run: seq<Action>)
    requires Reachable(w) && Pending(w, k)
    ensures CleanupRun(w, k, run) && ValidRun(w, run)
    ensures var o := Live(w.keys[k].slot).value;
            && k in Run(w, run).keys && Run(w, run).keys[k].slot.hist == HistoryReleased(w.keys[k].slot.hist, o)
            && Run(w, run).remotes == RemotesCleaned(w, Target(w, k, o), o.spec.subject)
  {
    var o := Live(w.keys[k].slot).value;
    CleanupIsPending(w, k);
    InvAt(w, k);
    LiveIsOk(w.json, w.keys[k]);
    assert Starting(w.json, w.keys[k].slot.hist, o) by { hide KeyInv, LinkInv, Reachable; }
    assert HistoryReleased(w.keys[k].slot.hist, o) != w.keys[k].slot.hist;
    hide KeyInv, LinkInv, Reachable, Starting, HistoryReleased;
    var w1 := if w.keys[k].dirty then w else Apply(w, Action.Fire(k));
    assert Enabled(w1, Action.Dequeue(k));
    var w2 := Apply(w1, Action.Dequeue(k));
    var rest := CleanCalls(w2, k, o);
    hide Apply, Enabled, CleanupRun;
    assert CleanupRun(w1, k, [Action.Dequeue(k)] + rest) &&
           Run(w1, [Action.Dequeue(k)] + rest) == Run(w2, rest) by { OneMore(w1, k, Action.Dequeue(k), rest); }
    if w.keys[k].dirty {
      run := [Action.Dequeue(k)] + rest;
    } else {
      OneMore(w, k, Action.Fire(k), [Action.Dequeue(k)] + rest);
      run := [Action.Fire(k)] + ([Action.Dequeue(k)] + rest);
    }
    CleanupAlone(w, k, run);
  }

  lemma OneMore(w: World, k: Key, a: Action, rest: seq<Action>)
    requires Enabled(w, a) && Undisturbed(w, k, a) && CleanupRun(Apply(w, a), k, rest)
    ensures CleanupRun(w, k, [a] + rest) && ValidRun(w, [a] + rest) && ValidRun(Apply(w, a), rest)
    ensures Run(w, [a] + rest) == Run(Apply(w, a), rest)
  {
    CleanupRunIsValid(Apply(w, a), k, rest);
    assert ([a] + rest)[1..] == rest;
    hide Apply, Enabled, Undisturbed;
  }
}
