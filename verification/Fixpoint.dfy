/** What one undisturbed reconcile does, and when doing it again changes nothing. */
module Fixpoint {
  import opened Kube
  import opened Api
  import opened Registry
  import opened SchemaKey
  import opened Cluster
  import opened ClusterProofs

  /** A queued Schema whose latest version is in the cache, finalizer and all, and whose registry is
      known under `url`. */
  ghost predicate Queued(w: World, k: Key, url: string) {
    && k in w.keys && w.keys[k].pc.Idle? && w.keys[k].dirty && Delivered(w.keys[k].slot)
    && Live(w.keys[k].slot).Some?
    && var o := Live(w.keys[k].slot).value;
    && !o.deleting && FINALIZER in o.finalizers && o.rv == |w.keys[k].slot.hist| - 1
    && UrlFor(w, k, o) == Some(url)
  }

  /** The remote registry after the registration, and after the compatibility level is set. */
  function RemoteRegistered(r: Registry, spec: SchemaSpec): Registry {
    Register(r, spec.subject, RequestOf(spec))
  }

  function RemoteReconciled(r: Registry, spec: SchemaSpec): Registry {
    if spec.compatibilityLevel == "" then RemoteRegistered(r, spec)
    else SetLevel(RemoteRegistered(r, spec), spec.subject, spec.compatibilityLevel)
  }

  function StatusReconciled(r: Registry, o: Schema, now: nat): Status {
    RegisteredStatus(o, IdOf(r, o.spec.subject, RequestOf(o.spec)),
                     ReportedVersion(RemoteRegistered(r, o.spec), o.spec.subject, Done), now)
  }

  function SlotReconciled(s: Slot<Schema>, r: Registry, now: nat): Slot<Schema>
    requires Live(s).Some?
  {
    Store(s, Live(s).value.(status := StatusReconciled(r, Live(s).value, now)))
  }

  ghost predicate Stage(w: World, w': World, k: Key, url: string)
    requires Queued(w, k, url)
  {
    var ks, o, r := w.keys[k], Live(w.keys[k].slot).value, RemoteAt(w, url);
    && k in w'.keys && w'.keys[k].slot == ks.slot && w'.keys[k].timer == ks.timer && !w'.keys[k].dirty
    && w'.json == w.json && w'.registries == w.registries && w'.clock == w.clock
    && StageOf(w'.keys[k].pc, o, url, r, w.remotes, w'.remotes, w'.clock)
  }

  ghost predicate StageOf(pc: Pc, o: Schema, url: string, r: Registry, before: map<string, Registry>,
      now: map<string, Registry>, clock: nat) {
    var id, v :=
      IdOf(r, o.spec.subject, RequestOf(o.spec)), ReportedVersion(RemoteRegistered(r, o.spec), o.spec.subject, Done);
    match pc
    case Start => now == before
    case GetRegistry(o') => o' == o && now == before
    case LoadAuth(o', url') => o' == o && url' == url && now == before
    case Post(o', url') => o' == o && url' == url && now == before
    case Latest(o', url', id') => o' == o && url' == url && id' == id &&
      now == before[url := RemoteRegistered(r, o.spec)]
    case Compat(o', url', id', v') =>
      o' == o && url' == url && id' == id && v' == v && o.spec.compatibilityLevel != "" &&
        now == before[url := RemoteRegistered(r, o.spec)]
    case StatusFetch(o', url', id', v') => o' == o && url' == url && id' == id && v' == v &&
      now == before[url := RemoteReconciled(r, o.spec)]
    case StatusWrite(o', url', id', v', _, t) => t == clock && o' == o && url' == url && id' == id && v' == v &&
      now == before[url := RemoteReconciled(r, o.spec)]
    case _ => false
  }

  function CallsLeft(pc: Pc): nat {
    match pc
    case Start => 8
    case GetRegistry(_) => 7
    case LoadAuth(_, _) => 6
    case Post(_, _) => 5
    case Latest(_, _, _) => 4
    case Compat(_, _, _, _) => 3
    case StatusFetch(_, _, _, _) => 2
    case _ => 1
  }

  lemma StageMoves(w: World, w': World, k: Key, url: string)
    requires Queued(w, k, url) && Stage(w, w', k, url) && !w'.keys[k].pc.StatusWrite?
    ensures var w1 := Apply(w', Call(k, Done));
            Enabled(w', Call(k, Done)) && Stage(w, w1, k, url) && CallsLeft(w1.keys[k].pc) < CallsLeft(w'.keys[k].pc)
  {
    CallSeen(w', k, Done);
    var o, r := Live(w.keys[k].slot).value, RemoteAt(w, url);
    var ks, i := w'.keys[k], InputFor(w', k, Done);
    hide Apply, Enabled;
    match ks.pc
    case Post(_, _) => PostMoves(w, w', k, url, o, r);
    case Latest(_, _, _) => LatestMoves(w, w', k, url, o, r);
    case Compat(_, _, _, _) => CompatMoves(w, w', k, url, o, r);
    case _ => hide StageOf, RemotesAfter; EarlyMoves(w, w', k, url, o, r);
  }

  lemma EarlyMoves(w: World, w': World, k: Key, url: string, o: Schema, r: Registry)
    requires k in w'.keys && StageOf(w'.keys[k].pc, o, url, r, w.remotes, w'.remotes, w'.clock)
    requires Cached(w'.keys[k].slot) == Some(o) && !o.deleting && FINALIZER in o.finalizers &&
             UrlFor(w', k, o) == Some(url)
    requires w'.keys[k].pc.Start? || w'.keys[k].pc.GetRegistry? || w'.keys[k].pc.LoadAuth? || w'.keys[k].pc.StatusFetch?
    ensures var n := SchemaKey.Advance(w'.json, w'.keys[k], InputFor(w', k, Done));
            && n == w'.keys[k].(pc := n.pc) && CallsLeft(n.pc) < CallsLeft(w'.keys[k].pc)
            && StageOf(n.pc, o, url, r, w.remotes, RemotesAfter(w', w'.keys[k].pc, Done), w'.clock)
  {
    hide Register, ReportedVersion, IdOf, SetLevel, RequestOf, RemoteReconciled, UrlFor;
  }

  lemma PostMoves(w: World, w': World, k: Key, url: string, o: Schema, r: Registry)
    requires k in w'.keys && StageOf(w'.keys[k].pc, o, url, r, w.remotes, w'.remotes, w'.clock) && r == RemoteAt(w, url)
    requires w'.keys[k].pc.Post?
    ensures var n := SchemaKey.Advance(w'.json, w'.keys[k], InputFor(w', k, Done));
            && n == w'.keys[k].(pc := n.pc) && CallsLeft(n.pc) < CallsLeft(w'.keys[k].pc)
            && StageOf(n.pc, o, url, r, w.remotes, RemotesAfter(w', w'.keys[k].pc, Done), w'.clock)
  {
    assert RemoteAt(w', url) == r;
    hide Register, ReportedVersion, IdOf, SetLevel, RequestOf;
  }

  lemma LatestMoves(w: World, w': World, k: Key, url: string, o: Schema, r: Registry)
    requires k in w'.keys && StageOf(w'.keys[k].pc, o, url, r, w.remotes, w'.remotes, w'.clock)
    requires w'.keys[k].pc.Latest?
    ensures var n := SchemaKey.Advance(w'.json, w'.keys[k], InputFor(w', k, Done));
            && n == w'.keys[k].(pc := n.pc) && CallsLeft(n.pc) < CallsLeft(w'.keys[k].pc)
            && StageOf(n.pc, o, url, r, w.remotes, RemotesAfter(w', w'.keys[k].pc, Done), w'.clock)
  {
    assert RemoteAt(w', url) == RemoteRegistered(r, o.spec);
    hide Register, ReportedVersion, IdOf, SetLevel, RequestOf, RemoteAt;
  }

  lemma CompatMoves(w: World, w': World, k: Key, url: string, o: Schema, r: Registry)
    requires k in w'.keys && StageOf(w'.keys[k].pc, o, url, r, w.remotes, w'.remotes, w'.clock)
    requires w'.keys[k].pc.Compat?
    ensures var n := SchemaKey.Advance(w'.json, w'.keys[k], InputFor(w', k, Done));
            && n == w'.keys[k].(pc := n.pc) && CallsLeft(n.pc) < CallsLeft(w'.keys[k].pc)
            && StageOf(n.pc, o, url, r, w.remotes, RemotesAfter(w', w'.keys[k].pc, Done), w'.clock)
  {
    assert RemoteAt(w', url) == RemoteRegistered(r, o.spec);
    MapTwice(w.remotes, url, RemoteRegistered(r, o.spec), RemoteReconciled(r, o.spec));
    hide Register, ReportedVersion, IdOf, SetLevel, RequestOf, RemoteAt;
  }

  lemma MapTwice(m: map<string, Registry>, url: string, a: Registry, b: Registry)
    ensures m[url := a][url := b] == m[url := b]
  {
  }

  lemma LastStage(w: World, w': World, k: Key, url: string)
    requires Queued(w, k, url) && Stage(w, w', k, url) && w'.keys[k].pc.StatusWrite?
    ensures var w1 := Apply(w', Call(k, Done));
            && Enabled(w', Call(k, Done)) && k in w1.keys && w1.keys[k].pc.Idle?
            && w1.keys[k].slot == SlotReconciled(w.keys[k].slot, RemoteAt(w, url), w.clock)
            && w1.remotes == w'.remotes && w1.registries == w.registries && w1.clock == w.clock && w1.json == w.json
            && !w1.keys[k].dirty && w1.keys[k].timer == w.keys[k].timer
  {
    CallSeen(w', k, Done);
    hide Apply, Enabled, Register, ReportedVersion, IdOf, SetLevel, RequestOf, RegisteredStatus, Store;
  }

  /** Calls of the key's reconcile, all answered. */
  predicate Answered(run: seq<Action>, k: Key) {
    forall i :: 0 <= i < |run| ==> run[i] == Call(k, Done)
  }

  /** A whole reconcile of the key, from the queue to its end, with no action of anybody else. */
  ghost predicate UndisturbedReconcile(w: World, k: Key, run: seq<Action>) {
    && run != [] && run[0] == Action.Dequeue(k) && Answered(run[1..], k)
    && ValidRun(w, run)
    && k in Run(w, run).keys && Run(w, run).keys[k].pc.Idle?
  }

  /** The key is idle again; the registry holds the content and the level, and the status reports
      the registry's answers at this clock second. */
  ghost predicate Reconciled(w: World, w': World, k: Key, url: string)
    requires Queued(w, k, url)
  {
    && k in w'.keys && w'.keys[k].pc.Idle? && !w'.keys[k].dirty && w'.keys[k].timer == w.keys[k].timer
    && w'.keys[k].slot == SlotReconciled(w.keys[k].slot, RemoteAt(w, url), w.clock)
    && w'.remotes == w.remotes[url := RemoteReconciled(RemoteAt(w, url), Live(w.keys[k].slot).value.spec)]
    && w'.registries == w.registries && w'.clock == w.clock && w'.json == w.json
  }

  /** From any stage, every way to the end leads there. */
  lemma {:induction false} EndsReconciled(w: World, w': World, k: Key, url: string, run: seq<Action>)
    requires Queued(w, k, url) && Stage(w, w', k, url)
    requires Answered(run, k) && ValidRun(w', run) && k in Run(w', run).keys && Run(w', run).keys[k].pc.Idle?
    ensures Reconciled(w, Run(w', run), k, url)
    decreases |run|
  {
    assert run != [];
    var a := Call(k, Done);
    assert run[0] == a && (|run| > 1 ==> run[1..][0] == a);
    if w'.keys[k].pc.StatusWrite? {
      LastStage(w, w', k, url);
      assert run[1..] == [];
      hide Apply, Enabled, SlotReconciled, RemoteReconciled;
    } else {
      StageMoves(w, w', k, url);
      hide Apply, Enabled, Stage, Queued, Reconciled;
      EndsReconciled(w, Apply(w', a), k, url, run[1..]);
    }
  }

  /** And the end is reached. */
  lemma {:induction false} Proceeds(w: World, w': World, k: Key, url: string) returns (run: seq<Action>)
    requires Queued(w, k, url) && Stage(w, w', k, url)
    ensures Answered(run, k) && ValidRun(w', run) && k in Run(w', run).keys && Run(w', run).keys[k].pc.Idle?
    decreases CallsLeft(w'.keys[k].pc)
  {
    var a := Call(k, Done);
    if w'.keys[k].pc.StatusWrite? {
      LastStage(w, w', k, url);
      run := [a];
      assert run[1..] == [];
      assert Run(Apply(w', a), []) == Apply(w', a);
      hide Apply, Enabled, SlotReconciled, RemoteReconciled;
    } else {
      StageMoves(w, w', k, url);
      hide Apply, Enabled, Stage, Queued, Reconciled;
      var rest := Proceeds(w, Apply(w', a), k, url);
      run := [a] + rest;
      assert run[1..] == rest;
    }
  }

  lemma StageStarts(w: World, k: Key, url: string)
    requires Queued(w, k, url)
    ensures Enabled(w, Action.Dequeue(k)) && Stage(w, Apply(w, Action.Dequeue(k)), k, url)
  {
  }

  /** All that the undisturbed reconcile of a queued Schema does, whichever way it goes. */
  lemma ReconcileReconciles(w: World, k: Key, url: string, run: seq<Action>)
    requires Queued(w, k, url) && UndisturbedReconcile(w, k, run)
    ensures Reconciled(w, Run(w, run), k, url)
  {
    StageStarts(w, k, url);
    hide Stage, Reconciled, Queued, Enabled, Apply;
    EndsReconciled(w, Apply(w, Action.Dequeue(k)), k, url, run[1..]);
  }

  /** There is such a reconcile. */
  lemma CleanReconcile(w: World, k: Key, url: string) returns (run: seq<Action>)
    requires Queued(w, k, url)
    ensures UndisturbedReconcile(w, k, run) && Reconciled(w, Run(w, run), k, url)
  {
    var a := Action.Dequeue(k);
    StageStarts(w, k, url);
    hide Stage, Reconciled, Queued, Enabled, Apply;
    var rest := Proceeds(w, Apply(w, a), k, url);
    run := [a] + rest;
    assert run[1..] == rest;
    ReconcileReconciles(w, k, url, run);
  }

  /** The status already says what a reconcile would write. */
  ghost predicate StatusIsCurrent(r: Registry, o: Schema, now: nat) {
    var id, v :=
      IdOf(r, o.spec.subject, RequestOf(o.spec)), ReportedVersion(RemoteRegistered(r, o.spec), o.spec.subject, Done);
    && o.status.schemaId == Some(id) && o.status.version == Some(v)
    && o.status.registeredAt == Some(now) && o.status.observedGeneration == o.generation
    && Ready(o).Some?
    && Ready(o).value.(lastTransition := 0) ==
       Condition(READY, IsTrue, "Registered", RegisteredAs(id, v), o.generation, 0)
  }

  /** The registry already holds the content, and the level if one is asked for. */
  ghost predicate RemoteIsCurrent(r: Registry, spec: SchemaSpec) {
    && Holds(r, spec.subject, RequestOf(spec))
    && (spec.compatibilityLevel != "" ==> spec.subject in r.levels && r.levels[spec.subject] == spec.compatibilityLevel)
  }

  lemma RegisterChanges(r: Registry, subject: string, content: Request)
    ensures Register(r, subject, content).subjects == r.subjects <==> Holds(r, subject, content)
    ensures Register(r, subject, content) == r <==> Holds(r, subject, content)
  {
    if !Holds(r, subject, content) {
      assert |Entries(Register(r, subject, content), subject)| == |Entries(r, subject)| + 1;
    }
  }

  lemma RemoteUnchanged(r: Registry, spec: SchemaSpec)
    ensures RemoteReconciled(r, spec) == r <==> RemoteIsCurrent(r, spec)
  {
    RegisterChanges(r, spec.subject, RequestOf(spec));
    var r1, level := RemoteRegistered(r, spec), spec.compatibilityLevel;
    assert r1.levels == r.levels;
    hide Register, Holds, RequestOf;
    if level != "" {
      assert (r.levels[spec.subject := level] == r.levels) ==
             (spec.subject in r.levels && r.levels[spec.subject] == level);
    }
  }

  lemma StatusUnchanged(r: Registry, o: Schema, now: nat)
    ensures StatusReconciled(r, o, now) == o.status <==> StatusIsCurrent(r, o, now)
  {
    var id, v :=
      IdOf(r, o.spec.subject, RequestOf(o.spec)), ReportedVersion(RemoteRegistered(r, o.spec), o.spec.subject, Done);
    var c := Condition(READY, IsTrue, "Registered", RegisteredAs(id, v), o.generation, now);
    hide IdOf, ReportedVersion, RemoteRegistered, RequestOf, FindCondition, SetStatusCondition;
    SetStatusConditionIdempotent(o.status.conditions, c, now);
    FindByCount(o.status.conditions, READY);
  }

  /** When a reconcile changes nothing: exactly when the registry holds the content (and the level)
      and the status already carries the registry's answers at this clock second. */
  lemma FixpointExactly(w: World, w': World, k: Key, url: string)
    requires Queued(w, k, url) && Reconciled(w, w', k, url)
    ensures var o := Live(w.keys[k].slot).value;
            && (w'.keys[k].slot == w.keys[k].slot <==> StatusIsCurrent(RemoteAt(w, url), o, w.clock))
            && (RemoteAt(w', url) == RemoteAt(w, url) <==> RemoteIsCurrent(RemoteAt(w, url), o.spec))
  {
    var o, r := Live(w.keys[k].slot).value, RemoteAt(w, url);
    StatusUnchanged(r, o, w.clock);
    RemoteUnchanged(r, o.spec);
    hide StatusIsCurrent, RemoteIsCurrent, RemoteReconciled, StatusReconciled;
    if StatusReconciled(r, o, w.clock) != o.status {
      assert o.(status := StatusReconciled(r, o, w.clock)) != o;
    }
  }

  /** What a reconcile leaves behind in the registry, registering again neither changes nor answers
      differently. */
  lemma RemoteStaysCurrent(r: Registry, spec: SchemaSpec)
    requires RegistryOk(r)
    ensures var r2 := RemoteReconciled(r, spec);
            && RemoteIsCurrent(r2, spec) && RemoteReconciled(r2, spec) == r2
            && IdOf(r2, spec.subject, RequestOf(spec)) == IdOf(r, spec.subject, RequestOf(spec))
            && ReportedVersion(RemoteRegistered(r2, spec), spec.subject, Done) ==
               ReportedVersion(RemoteRegistered(r, spec), spec.subject, Done)
  {
    var content, subject := RequestOf(spec), spec.subject;
    var r1, r2 := RemoteRegistered(r, spec), RemoteReconciled(r, spec);
    RegisterIsIdempotent(r, subject, content);
    RegisterKeepsOk(r, subject, content);
    LevelIsNoContent(r1, spec);
    RegisterChanges(r2, subject, content);
    RemoteUnchanged(r2, spec);
    hide RequestOf, RegistryOk, Register, Holds, LatestVersion, Entries;
  }

  /** Setting a level changes no content. */
  lemma LevelIsNoContent(r1: Registry, spec: SchemaSpec)
    ensures var r2 := if spec.compatibilityLevel == "" then r1 else SetLevel(r1, spec.subject, spec.compatibilityLevel);
            && r2.ids == r1.ids
            && LatestVersion(r2, spec.subject) == LatestVersion(r1, spec.subject)
            && (Holds(r2, spec.subject, RequestOf(spec)) <==> Holds(r1, spec.subject, RequestOf(spec)))
  {
    var r2 := if spec.compatibilityLevel == "" then r1 else SetLevel(r1, spec.subject, spec.compatibilityLevel);
    assert Entries(r2, spec.subject) == Entries(r1, spec.subject);
    hide RequestOf;
  }

  lemma StatusStaysCurrent(r: Registry, r2: Registry, o: Schema, now: nat)
    requires IdOf(r2, o.spec.subject, RequestOf(o.spec)) == IdOf(r, o.spec.subject, RequestOf(o.spec))
    requires ReportedVersion(RemoteRegistered(r2, o.spec), o.spec.subject, Done) ==
             ReportedVersion(RemoteRegistered(r, o.spec), o.spec.subject, Done)
    ensures StatusIsCurrent(r2, o.(status := StatusReconciled(r, o, now)), now)
  {
    var id, v :=
      IdOf(r, o.spec.subject, RequestOf(o.spec)), ReportedVersion(RemoteRegistered(r, o.spec), o.spec.subject, Done);
    hide IdOf, ReportedVersion, RequestOf, FindCondition, SetStatusCondition, RemoteRegistered;
    SetStatusConditionMeaning(o.status.conditions,
      Condition(READY, IsTrue, "Registered", RegisteredAs(id, v), o.generation, now), now, "");
  }

  /** What a second reconcile finds current it leaves alone. */
  lemma NothingLeftToDo(w: World, w': World, k: Key, url: string)
    requires Queued(w, k, url) && Reconciled(w, w', k, url) && url in w.remotes
    requires StatusIsCurrent(RemoteAt(w, url), Live(w.keys[k].slot).value, w.clock)
    requires RemoteIsCurrent(RemoteAt(w, url), Live(w.keys[k].slot).value.spec)
    ensures w'.keys[k].slot == w.keys[k].slot && w'.remotes == w.remotes
  {
    FixpointExactly(w, w', k, url);
    hide StatusIsCurrent, RemoteIsCurrent, RemoteReconciled, SlotReconciled, StatusReconciled;
    assert w'.remotes == w.remotes[url := RemoteAt(w', url)];
    assert w.remotes[url := RemoteAt(w, url)] == w.remotes;
  }

  /** The world once the cache has caught up with the key. */
  function CaughtUp(w: World, k: Key): World
    requires k in w.keys && !Delivered(w.keys[k].slot)
  {
    Apply(w, Action.Deliver(k, |w.keys[k].slot.hist| - 1))
  }

  lemma OwnEventQueues(w: World, w1: World, k: Key, url: string)
    requires Queued(w, k, url) && Reconciled(w, w1, k, url) && !Delivered(w1.keys[k].slot)
    ensures var w2 := CaughtUp(w1, k);
            && w2 == w1.(keys := w2.keys) && k in w2.keys
            && w2.keys[k].slot.hist == w1.keys[k].slot.hist && w2.keys[k].timer == w1.keys[k].timer
            && Queued(w2, k, url)
  {
    var o := Live(w.keys[k].slot).value;
    StoreStores(w.keys[k].slot, o.(status := StatusReconciled(RemoteAt(w, url), o, w.clock)));
    hide StatusReconciled, RemoteReconciled;
  }

  lemma SecondFindsNothing(w: World, w1: World, w3: World, k: Key, url: string)
    requires Queued(w, k, url) && RegistryOk(RemoteAt(w, url)) && Reconciled(w, w1, k, url) &&
             !Delivered(w1.keys[k].slot)
    requires Queued(CaughtUp(w1, k), k, url) && Reconciled(CaughtUp(w1, k), w3, k, url)
    ensures w3.keys[k].slot == CaughtUp(w1, k).keys[k].slot && w3.remotes == w1.remotes
  {
    OwnEventQueues(w, w1, k, url);
    hide CaughtUp;
    LeftBehind(w, k, url, w1, CaughtUp(w1, k));
    NothingLeftToDo(CaughtUp(w1, k), w3, k, url);
    hide Reconciled, Queued, RegistryOk;
  }

  /** After an undisturbed reconcile the key is quiet, unless a timer was pending from the start, or
      else the event of its own status update is under way and will queue it again. */
  lemma ReconcileSettles(w: World, k: Key, url: string, run: seq<Action>)
    requires Queued(w, k, url) && UndisturbedReconcile(w, k, run)
    ensures Delivered(Run(w, run).keys[k].slot) ==> (Quiet(Run(w, run).keys[k]) <==> !w.keys[k].timer)
    ensures !Delivered(Run(w, run).keys[k].slot) ==> Queued(CaughtUp(Run(w, run), k), k, url)
  {
    ReconcileReconciles(w, k, url, run);
    hide UndisturbedReconcile, SlotReconciled, RemoteReconciled;
    if !Delivered(Run(w, run).keys[k].slot) {
      OwnEventQueues(w, Run(w, run), k, url);
    }
    hide Queued, CaughtUp;
  }

  /** Reconciling reaches a fixpoint: once that event has been delivered, a second reconcile within the
      same clock second changes neither the registry nor the object, and after it the key is quiet,
      unless a timer was pending from the start. */
  lemma SecondReconcileIsSilent(w: World, k: Key, url: string, first: seq<Action>, second: seq<Action>)
    requires Queued(w, k, url) && RegistryOk(RemoteAt(w, url)) && UndisturbedReconcile(w, k, first)
    requires !Delivered(Run(w, first).keys[k].slot)
    requires UndisturbedReconcile(CaughtUp(Run(w, first), k), k, second)
    ensures var w2 := CaughtUp(Run(w, first), k);
            var w3 := Run(w2, second);
            && w3.keys[k].slot == w2.keys[k].slot && w3.remotes == Run(w, first).remotes
            && (Quiet(w3.keys[k]) <==> !w.keys[k].timer)
  {
    var w1 := Run(w, first);
    var w2 := CaughtUp(w1, k);
    ReconcileReconciles(w, k, url, first);
    OwnEventQueues(w, w1, k, url);
    hide UndisturbedReconcile, CaughtUp;
    ReconcileReconciles(w2, k, url, second);
    SecondFindsNothing(w, w1, Run(w2, second), k, url);
    assert Delivered(w2.keys[k].slot) && w2.keys[k].timer == w.keys[k].timer;
    hide Queued, SlotReconciled, RemoteReconciled, RegistryOk;
  }

  /** What one reconcile leaves behind is current. */
  lemma LeftBehind(w: World, k: Key, url: string, w1: World, w2: World)
    requires Queued(w, k, url) && RegistryOk(RemoteAt(w, url)) && Reconciled(w, w1, k, url)
    requires w2.remotes == w1.remotes && w2.clock == w1.clock
    requires k in w2.keys && w2.keys[k].slot.hist == w1.keys[k].slot.hist && Live(w2.keys[k].slot).Some?
    ensures url in w2.remotes
    ensures StatusIsCurrent(RemoteAt(w2, url), Live(w2.keys[k].slot).value, w2.clock)
    ensures RemoteIsCurrent(RemoteAt(w2, url), Live(w2.keys[k].slot).value.spec)
  {
    var o, r := Live(w.keys[k].slot).value, RemoteAt(w, url);
    var r2 := RemoteReconciled(r, o.spec);
    var n := Live(w2.keys[k].slot).value;
    assert RemoteAt(w2, url) == r2;
    assert n == o.(rv := n.rv, status := StatusReconciled(r, o, w.clock)) by {
      hide RemoteReconciled, StatusReconciled, RegistryOk, Store;
      StoreStores(w.keys[k].slot, o.(status := StatusReconciled(r, o, w.clock)));
    }
    hide RemoteReconciled, StatusReconciled, RemoteIsCurrent, RemoteRegistered, IdOf, ReportedVersion, SlotReconciled,
         RequestOf, Reconciled, Queued;
    RemoteStaysCurrent(r, o.spec);
    StatusStaysCurrent(r, r2, o, w.clock);
    StatusIgnoresVersion(r2, o.(status := StatusReconciled(r, o, w.clock)), n, w.clock);
  }

  lemma StatusIgnoresVersion(r: Registry, o: Schema, n: Schema, now: nat)
    requires StatusIsCurrent(r, o, now) && n == o.(rv := n.rv)
    ensures StatusIsCurrent(r, n, now)
  {
    hide IdOf, ReportedVersion, RequestOf, RemoteRegistered;
  }

  lemma StoreStores(s: Slot<Schema>, o: Schema)
    requires Live(s).Some? && !o.deleting && o.rv == Live(s).value.rv
    ensures Live(Store(s, o)).Some? && Live(Store(s, o)).value == o.(rv := Live(Store(s, o)).value.rv)
  {
  }
}
