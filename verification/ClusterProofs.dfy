/** Every action of the system keeps `Inv`, so every reachable world satisfies it. */
module ClusterProofs {
  import opened Kube
  import opened Api
  import opened Admission
  import opened Registry
  import opened Auth
  import opened SchemaKey
  import opened SchemaKeyProofs
  import opened Cluster

  // ----- frames -----

  /** What keeps the link invariant of a key that an action does not touch. */
  lemma LinkFrame(w: World, w': World, k: Key)
    requires k in w.keys && k in w'.keys && w'.keys[k] == w.keys[k] && LinkInv(w, k)
    requires w.acks <= w'.acks && w'.registries == w.registries
    requires forall b :: b in w'.ledger && b.key == k ==> b in w.ledger
    ensures LinkInv(w', k)
  {
    QuietFrame(w, w', k);
    hide Synchronised;
  }

  lemma QuietFrame(w: World, w': World, k: Key)
    requires k in w.keys && k in w'.keys && w'.keys[k].slot == w.keys[k].slot && QuietInv(w, k)
    requires Quiet(w'.keys[k]) ==> Quiet(w.keys[k])
    requires w.acks <= w'.acks && w'.registries == w.registries
    ensures QuietInv(w', k)
  {
    var ks := w.keys[k];
    if Quiet(ks) && Live(ks.slot).Some? && !Live(ks.slot).value.deleting {
      var o := Live(ks.slot).value;
      var url :| AnsweredAt(w, k, o, url);
      assert AnsweredAt(w', k, o, url);
    }
  }

  lemma HasShownGrows(s: Slot<Schema>, s': Slot<Schema>, inc: nat, subject: string)
    requires HasShown(s, inc, subject) && s.hist <= s'.hist && s.seen <= s'.seen
    ensures HasShown(s', inc, subject)
  {
    var i :| 0 <= i <= s.seen && s.hist[i].Some? && s.hist[i].value.inc == inc &&
      s.hist[i].value.spec.subject == subject;
    assert s'.hist[i] == s.hist[i];
  }

  /** A binding survives whatever keeps its object bound and its subject registered. */
  lemma BindingFrame(w: World, w': World, b: Binding)
    requires BindingInv(w, b) && b.key in w'.keys
    requires Grows(w.keys[b.key], w'.keys[b.key]) && KeepsBound(w.keys[b.key], w'.keys[b.key])
    requires b in w.abandoned ==> b in w'.abandoned
    requires b.subject in RemoteAt(w', b.url).subjects
    ensures BindingInv(w', b)
  {
    HasShownGrows(w.keys[b.key].slot, w'.keys[b.key].slot, b.inc, b.subject);
    hide HasShown;
  }

  /** An action that changes one key and nothing else. */
  lemma KeyActionKeeps(w: World, k: Key, ks': KeyState)
    requires Inv(w) && k in w.keys && KeyInv(w.json, ks')
    requires Grows(w.keys[k], ks') && KeepsBound(w.keys[k], ks')
    requires var w' := w.(keys := w.keys[k := ks']); AckInv(w', k) && UrlInv(w', k) && QuietInv(w', k)
    requires CleanupInv(w.ledger, k, ks'.pc)
    ensures Inv(w.(keys := w.keys[k := ks']))
  {
    var w' := w.(keys := w.keys[k := ks']);
    hide KeyInv;
    forall l | l in w'.keys ensures LinkInv(w', l) {
      if l != k { LinkFrame(w, w', l); }
    }
    forall b | b in w'.ledger ensures BindingInv(w', b) {
      BindingFrame(w, w', b);
    }
    hide LinkInv, BindingInv;
  }

  // ----- users, informers and the workqueue -----

  lemma KeyOf(w: World, k: Key)
    requires Inv(w) && k in w.keys
    ensures KeyInv(w.json, w.keys[k]) && LinkInv(w, k)
  {
  }

  /** A foreign change of one object: the reconcile in flight is left alone, and unless nothing
      changed an event is under way. */
  lemma ForeignChangeKeeps(w: World, k: Key, ks': KeyState)
    requires Inv(w) && k in w.keys && KeyInv(w.json, ks')
    requires Grows(w.keys[k], ks') && KeepsBound(w.keys[k], ks')
    requires ks'.pc == w.keys[k].pc && ks'.dirty == w.keys[k].dirty && ks'.timer == w.keys[k].timer
    requires ks'.slot == w.keys[k].slot || !Delivered(ks'.slot)
    ensures Inv(w.(keys := w.keys[k := ks']))
  {
    KeyOf(w, k);
    hide Inv, KeyInv, Synchronised;
    var w' := w.(keys := w.keys[k := ks']);
    if ks'.slot == w.keys[k].slot { QuietFrame(w, w', k); }
    KeyActionKeeps(w, k, ks');
  }

  lemma UserCreateKeeps(w: World, k: Key, spec: SchemaSpec, fs: set<string>)
    requires Inv(w) && Enabled(w, UserCreate(k, spec, fs))
    ensures Inv(Apply(w, UserCreate(k, spec, fs)))
  {
    KeyOf(w, k);
    hide Inv, KeyInv;
    CreateKeeps(w.json, w.keys[k], spec, fs);
    UserKeepsBound(w.json, w.keys[k]);
    hide MayCreate, Grows, KeepsBound;
    assert w.keys[k].slot.seen < |w.keys[k].slot.hist|;
    ForeignChangeKeeps(w, k, SchemaKey.Create(w.keys[k], spec, fs));
  }

  lemma UserUpdateKeeps(w: World, k: Key, spec: SchemaSpec, fs: set<string>)
    requires Inv(w) && Enabled(w, UserUpdate(k, spec, fs))
    ensures Inv(Apply(w, UserUpdate(k, spec, fs)))
  {
    KeyOf(w, k);
    hide Inv, KeyInv;
    UpdateKeeps(w.json, w.keys[k], spec, fs);
    UserKeepsBound(w.json, w.keys[k]);
    hide AdmitsUpdate, Grows, KeepsBound;
    assert w.keys[k].slot.seen < |w.keys[k].slot.hist|;
    ForeignChangeKeeps(w, k, SchemaKey.Update(w.keys[k], spec, fs));
  }

  lemma UserDeleteKeeps(w: World, k: Key)
    requires Inv(w) && Enabled(w, UserDelete(k))
    ensures Inv(Apply(w, UserDelete(k)))
  {
    KeyOf(w, k);
    hide Inv, KeyInv;
    DeleteKeeps(w.json, w.keys[k]);
    UserKeepsBound(w.json, w.keys[k]);
    hide Grows, KeepsBound;
    assert w.keys[k].slot.seen < |w.keys[k].slot.hist|;
    ForeignChangeKeeps(w, k, SchemaKey.DeleteByUser(w.keys[k]));
  }

  /** Marking a key, or taking it from the queue. */
  lemma QueueChangeKeeps(w: World, k: Key, ks': KeyState)
    requires k in w.keys
    requires ks'.pc.Start? || (ks'.dirty && ks'.pc == w.keys[k].pc)
    ensures Inv(w) && KeyInv(w.json, ks') && Grows(w.keys[k], ks') && KeepsBound(w.keys[k], ks') ==>
              Inv(w.(keys := w.keys[k := ks']))
  {
    if Inv(w) && KeyInv(w.json, ks') && Grows(w.keys[k], ks') && KeepsBound(w.keys[k], ks') {
      KeyOf(w, k);
      hide Inv, KeyInv, Synchronised;
      KeyActionKeeps(w, k, ks');
    }
  }

  lemma DeliverActionKeeps(w: World, k: Key, to: nat)
    requires Inv(w) && Enabled(w, Action.Deliver(k, to))
    ensures Inv(Apply(w, Action.Deliver(k, to)))
  {
    KeyOf(w, k);
    hide Inv, KeyInv;
    DeliverKeeps(w.json, w.keys[k], to);
    QueueChangeKeeps(w, k, SchemaKey.Deliver(w.keys[k], to));
  }

  lemma FireKeeps(w: World, k: Key)
    requires Inv(w) && Enabled(w, Action.Fire(k))
    ensures Inv(Apply(w, Action.Fire(k)))
  {
    KeyOf(w, k);
    assert Apply(w, Action.Fire(k)) == w.(keys := w.keys[k := SchemaKey.Fire(w.keys[k])]);
    hide Inv, KeyInv, LinkInv, Apply;
    MarkKeeps(w.json, w.keys[k]);
    SameSlotIsBound(w.keys[k], SchemaKey.Fire(w.keys[k]));
    hide Grows, KeepsBound;
    QueueChangeKeeps(w, k, SchemaKey.Fire(w.keys[k]));
  }

  lemma DequeueKeeps(w: World, k: Key)
    requires Inv(w) && Enabled(w, Action.Dequeue(k))
    ensures Inv(Apply(w, Action.Dequeue(k)))
  {
    KeyOf(w, k);
    assert Apply(w, Action.Dequeue(k)) == w.(keys := w.keys[k := SchemaKey.Dequeue(w.keys[k])]);
    hide Inv, KeyInv, LinkInv, Apply;
    MarkKeeps(w.json, w.keys[k]);
    SameSlotIsBound(w.keys[k], SchemaKey.Dequeue(w.keys[k]));
    hide Grows, KeepsBound;
    QueueChangeKeeps(w, k, SchemaKey.Dequeue(w.keys[k]));
  }

  /** What wakes and restarts leave alone. */
  lemma SweepFrame(w: World, a: Action)
    requires Enabled(w, a) && (a.Restart? || a.DeliverRegistry?)
    ensures var w' := Apply(w, a);
            && w' == w.(keys := w'.keys, registries := w'.registries) && w'.keys.Keys == w.keys.Keys
            && forall k :: k in w.keys ==> w'.keys[k].slot == w.keys[k].slot
  {
    hide WokenBy;
  }

  /** Wakes and restarts change many keys, but only their queue marks. */
  lemma SweepKeepsBindings(w: World, w': World)
    requires Inv(w)
    requires w' == w.(keys := w'.keys, registries := w'.registries) && w'.keys.Keys == w.keys.Keys
    requires forall k :: k in w.keys ==> w'.keys[k].slot == w.keys[k].slot
    ensures forall b :: b in w'.ledger ==> BindingInv(w', b)
  {
    forall b | b in w'.ledger ensures BindingInv(w', b) {
      hide KeyInv, LinkInv;
      BindingFrame(w, w', b);
    }
  }

  /** A queue mark that no reconcile depends on. */
  lemma MarkedLink(w: World, w': World, k: Key)
    requires k in w.keys && k in w'.keys
    requires w'.acks == w.acks && w'.ledger == w.ledger
    requires w'.keys[k].pc == w.keys[k].pc || w'.keys[k].pc.Idle?
    requires w'.keys[k].dirty || (Cached(w'.keys[k].slot).None? && w'.keys[k].pc.Idle?)
    ensures LinkInv(w, k) ==> LinkInv(w', k)
  {
    hide Synchronised;
  }

  lemma RestartKeepsKey(w: World, k: Key)
    requires Inv(w) && k in w.keys
    ensures k in Apply(w, Action.Restart).keys
    ensures KeyInv(w.json, Apply(w, Action.Restart).keys[k]) && LinkInv(Apply(w, Action.Restart), k)
  {
    var w' := Apply(w, Action.Restart);
    KeyOf(w, k);
    assert w'.keys[k] == SchemaKey.Restart(w.keys[k]) && w'.acks == w.acks && w'.ledger == w.ledger &&
           w'.json == w.json;
    hide KeyInv, Inv, LinkInv, Apply, Enabled;
    MarkKeeps(w.json, w.keys[k]);
    MarkedLink(w, w', k);
  }

  lemma RestartActionKeeps(w: World)
    requires Inv(w)
    ensures Inv(Apply(w, Action.Restart))
  {
    var w' := Apply(w, Action.Restart);
    forall k | k in w.keys ensures k in w'.keys && KeyInv(w.json, w'.keys[k]) && LinkInv(w', k) {
      hide KeyInv, LinkInv, Inv, Apply, Enabled;
      RestartKeepsKey(w, k);
    }
    SweepFrame(w, Action.Restart);
    hide KeyInv, LinkInv, Apply, Enabled;
    SweepKeepsBindings(w, w');
    hide KeyInv, LinkInv, BindingInv, RegistryOk, Apply, Enabled;
  }

  /** A registry's event marks exactly the Schemas that the cache shows in its namespace with its name. */
  lemma RegistryWakesExactly(w: World, rk: Key, to: nat, k: Key)
    requires Enabled(w, DeliverRegistry(rk, to)) && k in w.keys
    ensures var w' := Apply(w, DeliverRegistry(rk, to));
            && k in w'.keys
            && w'.keys[k] == w.keys[k].(dirty := w'.keys[k].dirty)
            && (w'.keys[k].dirty <==>
                  || w.keys[k].dirty
                  || (Cached(w.keys[k].slot).Some? && k.namespace == rk.namespace &&
                      Cached(w.keys[k].slot).value.spec.registryRef.name == rk.name))
  {
  }

  lemma DeliverRegistryKeepsKey(w: World, rk: Key, to: nat, k: Key)
    requires Inv(w) && Enabled(w, DeliverRegistry(rk, to)) && k in w.keys
    ensures k in Apply(w, DeliverRegistry(rk, to)).keys
    ensures KeyInv(w.json, Apply(w, DeliverRegistry(rk, to)).keys[k]) && LinkInv(Apply(w, DeliverRegistry(rk, to)), k)
  {
    var w' := Apply(w, DeliverRegistry(rk, to));
    KeyOf(w, k);
    assert k in w'.keys && w'.keys[k] == (if WokenBy(rk, k, w.keys[k]) then Mark(w.keys[k]) else w.keys[k]) &&
           w'.acks == w.acks && w'.ledger == w.ledger && w'.json == w.json;
    hide KeyInv, Inv, LinkInv, Apply, Enabled;
    MarkKeeps(w.json, w.keys[k]);
    if WokenBy(rk, k, w.keys[k]) {
      MarkedLink(w, w', k);
    } else {
      UnwokenLink(w, rk, to, k);
    }
  }

  lemma DeliverRegistryKeeps(w: World, rk: Key, to: nat)
    requires Inv(w) && Enabled(w, DeliverRegistry(rk, to))
    ensures Inv(Apply(w, DeliverRegistry(rk, to)))
  {
    var w' := Apply(w, DeliverRegistry(rk, to));
    forall k | k in w.keys ensures k in w'.keys && KeyInv(w.json, w'.keys[k]) && LinkInv(w', k) {
      hide KeyInv, LinkInv, Inv, Apply, Enabled;
      DeliverRegistryKeepsKey(w, rk, to, k);
    }
    SweepFrame(w, DeliverRegistry(rk, to));
    hide KeyInv, LinkInv, Apply, Enabled;
    SweepKeepsBindings(w, w');
    hide KeyInv, LinkInv, BindingInv, RegistryOk, Apply, Enabled;
  }

  /** A key that a registry's event does not wake does not depend on that registry. */
  lemma UnwokenLink(w: World, rk: Key, to: nat, k: Key)
    requires Enabled(w, DeliverRegistry(rk, to)) && k in w.keys && !WokenBy(rk, k, w.keys[k])
    ensures KeyInv(w.json, w.keys[k]) && LinkInv(w, k) ==> LinkInv(Apply(w, DeliverRegistry(rk, to)), k)
  {
    if KeyInv(w.json, w.keys[k]) && LinkInv(w, k) {
      var w' := Apply(w, DeliverRegistry(rk, to));
      var ks := w.keys[k];
      assert FreshOk(ks);
      hide KeyInv, FreshOk, AckInv, CleanupInv;
      if Cached(ks.slot).Some? && OwnNamespace(k, Cached(ks.slot).value.spec.registryRef) {
        assert UrlFor(w', k, Cached(ks.slot).value) == UrlFor(w, k, Cached(ks.slot).value);
      }
      assert UrlInv(w', k) by { assert FreshOk(ks); UnwokenUrl(w, w', k); }
      UnwokenQuiet(w, w', k);
      assert AckInv(w', k) && CleanupInv(w'.ledger, k, w'.keys[k].pc) by { UnwokenRest(w, w', k); }
    }
  }

  lemma UnwokenUrl(w: World, w': World, k: Key)
    requires k in w.keys && k in w'.keys && w'.keys[k] == w.keys[k] && UrlInv(w, k) && FreshOk(w.keys[k])
    requires var c := Cached(w.keys[k].slot);
             c.Some? && OwnNamespace(k, c.value.spec.registryRef) ==> UrlFor(w', k, c.value) == UrlFor(w, k, c.value)
    ensures UrlInv(w', k)
  {
  }

  lemma UnwokenQuiet(w: World, w': World, k: Key)
    requires k in w.keys && k in w'.keys && w'.keys[k] == w.keys[k] && QuietInv(w, k) && w'.acks == w.acks
    requires var c := Cached(w.keys[k].slot);
             c.Some? && OwnNamespace(k, c.value.spec.registryRef) ==> UrlFor(w', k, c.value) == UrlFor(w, k, c.value)
    ensures QuietInv(w', k)
  {
    var ks := w.keys[k];
    if Quiet(ks) && Live(ks.slot).Some? && !Live(ks.slot).value.deleting {
      var o := Live(ks.slot).value;
      var url :| AnsweredAt(w, k, o, url);
      assert AnsweredAt(w', k, o, url);
    }
  }

  lemma UnwokenRest(w: World, w': World, k: Key)
    requires k in w.keys && k in w'.keys && w'.keys[k] == w.keys[k] && LinkInv(w, k)
    requires w'.acks == w.acks && w'.ledger == w.ledger
    ensures AckInv(w', k) && CleanupInv(w'.ledger, k, w'.keys[k].pc)
  {
    hide UrlInv, QuietInv;
  }

  /** An edit of a SchemaRegistry is invisible until it is delivered. */
  lemma EditRegistryKeeps(w: World, rk: Key, content: Option<RegistrySpec>)
    requires Inv(w) && rk in w.registries
    ensures Inv(Apply(w, EditRegistry(rk, content)))
  {
    var w' := Apply(w, EditRegistry(rk, content));
    assert forall r :: LookupUrl(w', r) == LookupUrl(w, r);
    forall k | k in w.keys ensures LinkInv(w', k) {
      KeyOf(w, k);
      hide Inv, KeyInv;
      UnwokenQuiet(w, w', k);
      UnwokenRest(w, w', k);
      hide QuietInv, AckInv, CleanupInv;
    }
    hide KeyInv, LinkInv, LookupUrl;
    SweepKeepsBindings(w, w');
    hide BindingInv, RegistryOk;
  }

  lemma RemotesStayOk(w: World, url: string, op: Op)
    requires forall u :: u in w.remotes ==> RegistryOk(w.remotes[u])
    ensures RegistryOk(Perform(RemoteAt(w, url), op))
  {
    assert RegistryOk(RemoteAt(w, url)) by { hide SubjectOk; }
    hide RegistryOk;
    PerformKeepsOk(RemoteAt(w, url), op);
  }

  lemma RemoteKeeps(w: World, url: string, op: Op)
    requires Inv(w) && !op.Attempt?
    ensures Inv(Apply(w, Remote(url, op)))
  {
    hide RegistryOk, KeyInv;
    var w' := Apply(w, Remote(url, op));
    RemotesStayOk(w, url, op);
    forall k | k in w.keys ensures LinkInv(w', k) {
      assert LinkInv(w, k);
      hide LinkInv, BindingInv, Inv, Perform;
      LinkFrame(w, w', k);
    }
    forall b | b in w'.ledger ensures BindingInv(w', b) {
      assert BindingInv(w, b);
      SubjectSurvives(w, url, op, b);
      hide Inv, Perform;
      BindingFrame(w, w', b);
    }
    hide LinkInv, BindingInv, Perform;
  }

  lemma SubjectSurvives(w: World, url: string, op: Op, b: Binding)
    requires b.subject in RemoteAt(w, b.url).subjects
    requires op.ForeignDelete? ==> !(b.url == url && b.subject == op.subject)
    ensures b.subject in RemoteAt(w.(remotes := w.remotes[url := Perform(RemoteAt(w, url), op)]), b.url).subjects
  {
  }

  // ----- runs -----

  lemma {:induction false} RunAppend(w: World, run: seq<Action>, a: Action)
    requires ValidRun(w, run) && Enabled(Run(w, run), a)
    ensures ValidRun(w, run + [a]) && Run(w, run + [a]) == Apply(Run(w, run), a)
    decreases |run|
  {
    hide Enabled, Apply;
    if run == [] {
      assert (run + [a])[1..] == [];
      assert Run(Apply(w, a), []) == Apply(w, a);
    } else {
      assert (run + [a])[1..] == run[1..] + [a];
      RunAppend(Apply(w, run[0]), run[1..], a);
    }
  }

  /** Reachability is closed under enabled actions. */
  lemma Extend(w: World, a: Action)
    requires Reachable(w) && Enabled(w, a)
    ensures Reachable(Apply(w, a))
  {
    var start, run :| Initial(start) && Reaches(start, run, w);
    hide Initial, Enabled, Apply;
    RunAppend(start, run, a);
    assert Reaches(start, run + [a], Apply(w, a));
  }

  /** The world after a call, seen from the key that makes it. */
  lemma CallSeen(w: World, k: Key, outcome: Outcome)
    requires k in w.keys && !w.keys[k].pc.Idle?
    ensures var w1 := Apply(w, Call(k, outcome));
            && Enabled(w, Call(k, outcome))
            && k in w1.keys && w1.keys[k] == SchemaKey.Advance(w.json, w.keys[k], InputFor(w, k, outcome))
            && w1.remotes == RemotesAfter(w, w.keys[k].pc, outcome)
            && w1.json == w.json && w1.registries == w.registries && w1.clock == w.clock
  {
    hide SchemaKey.Advance, InputFor, RemotesAfter, LedgerAfter, AcksAfter, AbandonedAfter;
  }
}
