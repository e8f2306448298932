/** The ledger of registrations as the history of a run, the URLs its entries can name, and what that
    says about the removal of a finalizer. */
module Ledger {
  import opened Kube
  import opened Registry
  import opened Auth
  import opened SchemaKey
  import opened SchemaKeyProofs
  import opened Cluster
  import opened ClusterProofs
  import opened CallProofs
  import opened Theorems
  import opened Abandonment

  // ----- the ledger is the history -----

  /** This action is a registration that takes effect, answered or not. */
  ghost predicate Registers(w: World, a: Action, b: Binding)
    requires Enabled(w, a)
  {
    && a.Call? && a.key == b.key && !a.outcome.Refused?
    && var pc := w.keys[a.key].pc;
       pc.Post? && pc.url == b.url && pc.obj.spec.subject == b.subject && pc.obj.inc == b.inc
  }

  /** This action deletes the subject at the URL, whoever asks for it. */
  ghost predicate Deletes(w: World, a: Action, b: Binding)
    requires Enabled(w, a)
  {
    if a.Call? then
      var pc := w.keys[a.key].pc;
      !a.outcome.Refused? && pc.CleanupDelete? && pc.url == b.url && pc.obj.spec.subject == b.subject
    else a.Remote? && a.url == b.url && a.op == ForeignDelete(b.subject)
  }

  /** Some action of the run deletes it. */
  ghost predicate DeletedIn(w: World, run: seq<Action>, b: Binding)
    requires ValidRun(w, run)
    decreases |run|
  {
    run != [] && (Deletes(w, run[0], b) || DeletedIn(Apply(w, run[0]), run[1..], b))
  }

  /** Some action of the run registers it and no later one deletes it. */
  ghost predicate Survives(w: World, run: seq<Action>, b: Binding)
    requires ValidRun(w, run)
    decreases |run|
  {
    run != [] &&
    ((Registers(w, run[0], b) && !DeletedIn(Apply(w, run[0]), run[1..], b)) || Survives(Apply(w, run[0]), run[1..], b))
  }

  lemma LedgerStep(w: World, a: Action, b: Binding)
    requires Enabled(w, a)
    ensures b in Apply(w, a).ledger <==> Registers(w, a, b) || (b in w.ledger && !Deletes(w, a, b))
    ensures Deletes(w, a, b) ==> b.subject !in RemoteAt(Apply(w, a), b.url).subjects
  {
    hide AbandonedAfter, AcksAfter, SchemaKey.Advance, Wake, MayUpdate, MayCreate;
  }

  lemma {:induction false} LedgerOverRun(w: World, run: seq<Action>, b: Binding)
    requires ValidRun(w, run)
    ensures b in Run(w, run).ledger <==> Survives(w, run, b) || (b in w.ledger && !DeletedIn(w, run, b))
    decreases |run|
  {
    hide Registers, Deletes, Enabled, Apply;
    if run != [] {
      LedgerStep(w, run[0], b);
      LedgerOverRun(Apply(w, run[0]), run[1..], b);
    }
  }

  /** Over every run from the beginning the ledger holds exactly the registrations that took effect and
      whose subject nobody has deleted at that URL since. */
  lemma LedgerIsHistory(start: World, run: seq<Action>, b: Binding)
    requires Initial(start) && ValidRun(start, run)
    ensures b in Run(start, run).ledger <==> Survives(start, run, b)
  {
    LedgerOverRun(start, run, b);
  }

  // ----- where registrations can be -----

  /** The SchemaRegistry that this version of the object references has been seen with the URL. */
  ghost predicate ReferencedUrl(w: World, k: Key, o: Schema, url: string) {
    var rk := Resolve(k, o.spec.registryRef);
    && rk in w.registries
    && var s := w.registries[rk];
       exists j :: 0 <= j <= s.seen && s.hist[j].Some? && s.hist[j].value.url == url
  }

  /** Some version of object `inc` that the cache has shown references it with that URL. */
  ghost predicate ShownUrl(w: World, k: Key, inc: nat, url: string)
    requires k in w.keys
  {
    var s := w.keys[k].slot;
    exists i :: 0 <= i <= s.seen && s.hist[i].Some? && s.hist[i].value.inc == inc &&
      ReferencedUrl(w, k, s.hist[i].value, url)
  }

  /** The URL of the client in hand, up to the registration and throughout a cleanup. */
  function WorkingUrl(pc: Pc): Option<string> {
    match pc
    case LoadAuth(_, url) => Some(url)
    case Post(_, url) => Some(url)
    case CleanupLoadAuth(_, url) => Some(url)
    case CleanupDelete(_, url) => Some(url)
    case CleanupFinalize(_, cleaned) => cleaned
    case _ => None
  }

  ghost predicate WorkingShown(w: World, k: Key)
    requires k in w.keys
  {
    var pc := w.keys[k].pc;
    WorkingUrl(pc).Some? ==> ShownUrl(w, k, pc.obj.inc, WorkingUrl(pc).value)
  }

  ghost predicate UrlsShown(w: World) {
    && (forall k :: k in w.keys ==> WorkingShown(w, k))
    && (forall b :: b in w.ledger ==> b.key in w.keys && ShownUrl(w, b.key, b.inc, b.url))
  }

  lemma RegistriesGrow(w: World, a: Action, rk: Key)
    requires Enabled(w, a) && rk in w.registries
    ensures rk in Apply(w, a).registries
    ensures w.registries[rk].hist <= Apply(w, a).registries[rk].hist &&
            w.registries[rk].seen <= Apply(w, a).registries[rk].seen
  {
    hide SchemaKey.Advance, RemotesAfter, LedgerAfter, AbandonedAfter, AcksAfter, Wake, MayCreate, MayUpdate;
  }

  lemma KeysGrow(w: World, a: Action, k: Key)
    requires Inv(w) && Enabled(w, a) && k in w.keys
    ensures k in Apply(w, a).keys && Grows(w.keys[k], Apply(w, a).keys[k])
  {
    hide Inv, Grows, Apply, Enabled;
    if a.Call? { CallFrame(w, a.key, a.outcome, k); } else { OtherFrame(w, a, k); }
  }

  lemma ShownStays(w: World, a: Action, k: Key, inc: nat, url: string)
    requires Inv(w) && Enabled(w, a) && k in w.keys && ShownUrl(w, k, inc, url)
    ensures k in Apply(w, a).keys && ShownUrl(Apply(w, a), k, inc, url)
  {
    var s, w' := w.keys[k].slot, Apply(w, a);
    var i :| 0 <= i <= s.seen && s.hist[i].Some? && s.hist[i].value.inc == inc &&
      ReferencedUrl(w, k, s.hist[i].value, url);
    var rk := Resolve(k, s.hist[i].value.spec.registryRef);
    KeysGrow(w, a, k);
    RegistriesGrow(w, a, rk);
    hide Inv, Enabled, Apply;
    assert w'.keys[k].slot.hist[i] == s.hist[i];
    assert ReferencedUrl(w', k, s.hist[i].value, url) by {
      var j :| 0 <= j <= w.registries[rk].seen && w.registries[rk].hist[j].Some? &&
        w.registries[rk].hist[j].value.url == url;
      assert w'.registries[rk].hist[j] == w.registries[rk].hist[j];
    }
  }

  /** How a reconcile comes to hold a URL in these states. */
  lemma WorkingSource(json: string -> bool, ks: KeyState, i: Input)
    ensures var n := SchemaKey.Advance(json, ks, i);
            WorkingUrl(n.pc).Some? ==>
              && n.slot == ks.slot && HasObj(ks.pc) && n.pc.obj == ks.pc.obj
              && (WorkingUrl(ks.pc) == WorkingUrl(n.pc) ||
                  ((ks.pc.GetRegistry? || ks.pc.CleanupGetRegistry?) && i.url == WorkingUrl(n.pc)))
  {
    hide ApiUpdate, ApiUpdateStatus, RegisteredStatus, FailedStatus;
  }

  lemma LookupIsShown(w: World, k: Key)
    requires k in w.keys && KeyInv(w.json, w.keys[k]) && HasObj(w.keys[k].pc) && UrlFor(w, k, w.keys[k].pc.obj).Some?
    ensures ShownUrl(w, k, w.keys[k].pc.obj.inc, UrlFor(w, k, w.keys[k].pc.obj).value)
  {
    var ks := w.keys[k];
    assert ThreadOk(ks);
    hide KeyInv;
    assert ks.slot.hist[ks.pc.obj.rv] == Some(ks.pc.obj);
    var rk := Resolve(k, ks.pc.obj.spec.registryRef);
    assert w.registries[rk].hist[w.registries[rk].seen] == Cached(w.registries[rk]);
    assert ReferencedUrl(w, k, ks.pc.obj, UrlFor(w, k, ks.pc.obj).value);
  }

  lemma CallKeepsWorking(w: World, k: Key, outcome: Outcome)
    requires Inv(w) && Enabled(w, Call(k, outcome)) && WorkingShown(w, k)
    ensures var w' := Apply(w, Call(k, outcome)); k in w'.keys && WorkingShown(w', k)
  {
    var ks, i := w.keys[k], InputFor(w, k, outcome);
    var n := SchemaKey.Advance(w.json, ks, i);
    KeyOf(w, k);
    CallSeen(w, k, outcome);
    if WorkingUrl(n.pc).Some? {
      WorkingSource(w.json, ks, i);
      if WorkingUrl(ks.pc) != WorkingUrl(n.pc) { LookupIsShown(w, k); }
      hide Inv, KeyInv, LinkInv, Apply, Enabled, SchemaKey.Advance, ShownUrl;
      ShownStays(w, Call(k, outcome), k, n.pc.obj.inc, WorkingUrl(n.pc).value);
    }
    hide Inv, KeyInv, LinkInv, Apply, Enabled, SchemaKey.Advance, ShownUrl;
  }

  lemma OtherKeepsWorking(w: World, a: Action, k: Key)
    requires Inv(w) && Enabled(w, a) && k in w.keys && WorkingShown(w, k) && !(a.Call? && a.key == k)
    ensures k in Apply(w, a).keys && WorkingShown(Apply(w, a), k)
  {
    var pc := w.keys[k].pc;
    if a.Call? { CallFrame(w, a.key, a.outcome, k); } else { OtherFrame(w, a, k); }
    hide Inv, Enabled, Apply, Grows, ShownUrl;
    if WorkingUrl(pc).Some? { ShownStays(w, a, k, pc.obj.inc, WorkingUrl(pc).value); }
  }

  lemma BindingKeepsUrl(w: World, a: Action, b: Binding)
    requires Inv(w) && Enabled(w, a) && UrlsShown(w) && b in Apply(w, a).ledger
    ensures b.key in Apply(w, a).keys && ShownUrl(Apply(w, a), b.key, b.inc, b.url)
  {
    LedgerStep(w, a, b);
    if b !in w.ledger { assert Registers(w, a, b) && WorkingShown(w, b.key); }
    assert b.key in w.keys && ShownUrl(w, b.key, b.inc, b.url) by { hide Inv, Apply, ShownUrl, Deletes; }
    hide Inv, Enabled, Apply, ShownUrl, WorkingShown, Registers, Deletes, UrlsShown;
    ShownStays(w, a, b.key, b.inc, b.url);
  }

  lemma StepKeepsUrls(w: World, a: Action)
    requires Inv(w) && Enabled(w, a) && UrlsShown(w)
    ensures UrlsShown(Apply(w, a))
  {
    var w' := Apply(w, a);
    KeysAreFixed(w, a);
    forall k | k in w'.keys ensures WorkingShown(w', k) {
      hide Inv, Enabled, Apply, WorkingShown;
      if a.Call? && a.key == k { CallKeepsWorking(w, k, a.outcome); } else { OtherKeepsWorking(w, a, k); }
    }
    forall b | b in w'.ledger ensures b.key in w'.keys && ShownUrl(w', b.key, b.inc, b.url) {
      hide Inv, Enabled, Apply, ShownUrl, WorkingShown;
      BindingKeepsUrl(w, a, b);
    }
    hide Inv, Enabled, Apply, WorkingShown, ShownUrl;
  }

  lemma KeysAreFixed(w: World, a: Action)
    requires Enabled(w, a)
    ensures Apply(w, a).keys.Keys == w.keys.Keys
  {
    hide SchemaKey.Advance, RemotesAfter, LedgerAfter, AbandonedAfter, AcksAfter, MayCreate, MayUpdate;
  }

  lemma {:induction false} RunKeepsUrls(w: World, run: seq<Action>)
    requires Inv(w) && UrlsShown(w) && ValidRun(w, run)
    ensures UrlsShown(Run(w, run))
    decreases |run|
  {
    hide Inv, UrlsShown;
    if run != [] {
      StepKeepsUrls(w, run[0]);
      ApplyKeeps(w, run[0]);
      RunKeepsUrls(Apply(w, run[0]), run[1..]);
    }
  }

  lemma ReachableUrls(w: World)
    requires Reachable(w)
    ensures UrlsShown(w)
  {
    var start, run :| Initial(start) && Reaches(start, run, w);
    InitialInv(start);
    assert UrlsShown(start);
    hide Inv, Initial, UrlsShown;
    RunKeepsUrls(start, run);
  }

  /** The operator registers, and cleans up, only at URLs that a SchemaRegistry referenced by a shown
      version of the object has been seen with. */
  lemma RegisteredWhereShown(w: World, b: Binding)
    requires Reachable(w) && b in w.ledger
    ensures b.key in w.keys && ShownUrl(w, b.key, b.inc, b.url)
  {
    ReachableUrls(w);
  }

  lemma CleanedWhereShown(w: World, k: Key)
    requires Reachable(w) && k in w.keys && w.keys[k].pc.CleanupFinalize? && w.keys[k].pc.cleaned.Some?
    ensures ShownUrl(w, k, w.keys[k].pc.obj.inc, w.keys[k].pc.cleaned.value)
  {
    ReachableUrls(w);
    assert WorkingShown(w, k);
  }

  // ----- removing the finalizer -----

  /** What is recorded for one object. */
  ghost predicate Belongs(b: Binding, k: Key, inc: nat) {
    b.key == k && b.inc == inc
  }

  /** An object goes without leaving anything behind if and only if every registration of it that still
      exists is at the URL its cleanup went to. (There it does not exist any more.) */
  lemma CleanRemoval(w: World, k: Key, outcome: Outcome)
    requires Reachable(w) && k in w.keys && RemovesFinalizer(w, k, outcome) && Enabled(w, Call(k, outcome))
    ensures Apply(w, Call(k, outcome)).abandoned == w.abandoned <==>
            (forall b :: b in w.ledger && Belongs(b, k, w.keys[k].pc.obj.inc) ==> w.keys[k].pc.cleaned == Some(b.url))
  {
    var inc := w.keys[k].pc.obj.inc;
    RemovalAbandonsAll(w, k, outcome);
    InvAt(w, k);
    assert CleanupInv(w.ledger, k, w.keys[k].pc);
    hide Reachable, KeyInv, LinkInv, Apply, Enabled, RemovesFinalizer, LeftBy;
  }

  lemma RemovalAbandonsAll(w: World, k: Key, outcome: Outcome)
    requires Reachable(w) && k in w.keys && RemovesFinalizer(w, k, outcome) && Enabled(w, Call(k, outcome))
    ensures Apply(w, Call(k, outcome)).abandoned == w.abandoned <==>
            (forall b :: b in w.ledger ==> !Belongs(b, k, w.keys[k].pc.obj.inc))
  {
    InvAt(w, k);
    RemovalUnattends(w, k, outcome);
    ReachableUnattended(w);
    var o := w.keys[k].pc.obj;
    hide KeyInv, LinkInv, Reachable;
    assert forall b :: b in w.ledger && Belongs(b, k, o.inc) ==> b !in w.abandoned;
    assert Apply(w, Call(k, outcome)).abandoned ==
           w.abandoned + LeftBy(w.ledger, k, o.inc) by { hide ApiUpdate, SchemaKey.Advance; }
    hide Apply, AllUnattended, Unattended, RemovesFinalizer;
    assert forall b :: b in LeftBy(w.ledger, k, o.inc) <==> b in w.ledger && Belongs(b, k, o.inc);
  }

  /** The same over a whole run: nothing is left behind if and only if every registration ever made for
      the object was followed by a deletion of its subject at its URL. */
  lemma CleanRemovalOverRuns(start: World, run: seq<Action>, k: Key, outcome: Outcome)
    requires Initial(start) && ValidRun(start, run) && k in Run(start, run).keys
    requires RemovesFinalizer(Run(start, run), k, outcome) && Enabled(Run(start, run), Call(k, outcome))
    ensures var w := Run(start, run);
            Apply(w, Call(k, outcome)).abandoned == w.abandoned <==>
            (forall b :: Belongs(b, k, w.keys[k].pc.obj.inc) ==> !Survives(start, run, b))
  {
    var w := Run(start, run);
    assert Reaches(start, run, w);
    hide Initial, RemovesFinalizer, Enabled, Apply, Survives, ValidRun, Belongs;
    RemovalAbandonsAll(w, k, outcome);
    forall b ensures b in w.ledger <==> Survives(start, run, b) { LedgerIsHistory(start, run, b); }
  }

  /** One URL throughout and a cleanup that was not skipped leave nothing behind. */
  lemma OneUrlLeavesNothing(w: World, k: Key, outcome: Outcome, url: string)
    requires Reachable(w) && k in w.keys && RemovesFinalizer(w, k, outcome) && Enabled(w, Call(k, outcome))
    requires w.keys[k].pc.cleaned.Some?
    requires forall u :: ShownUrl(w, k, w.keys[k].pc.obj.inc, u) ==> u == url
    ensures Apply(w, Call(k, outcome)).abandoned == w.abandoned
  {
    hide ShownUrl, Apply, Enabled, Reachable;
    CleanedWhereShown(w, k);
    CleanRemoval(w, k, outcome);
    forall b | b in w.ledger && Belongs(b, k, w.keys[k].pc.obj.inc) ensures b.url == url {
      RegisteredWhereShown(w, b);
    }
    hide RemovesFinalizer;
  }
}
