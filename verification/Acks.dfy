/** Every answered registration is on file at its registry, and when a status reports the answer to
    the very specification it stands beside. */
module Acks {
  import opened Kube
  import opened Api
  import opened Registry
  import opened SchemaKey
  import opened SchemaKeyProofs
  import opened Cluster
  import opened ClusterProofs
  import opened CallProofs
  import opened Theorems

  /** The registry at the URL has the request under the id that was answered. */
  ghost predicate Filed(w: World, a: Ack) {
    var ids := RemoteAt(w, a.url).ids;
    a.request in ids && ids[a.request] == a.id
  }

  ghost predicate AllFiled(w: World) {
    forall a :: a in w.acks ==> Filed(w, a)
  }

  /** Registries file each request once and for all. */
  ghost predicate KeepsIds(before: map<Request, nat>, after: map<Request, nat>) {
    forall c :: c in before ==> c in after && after[c] == before[c]
  }

  lemma RemotesKeepIds(w: World, pc: Pc, outcome: Outcome, url: string)
    requires forall u :: u in w.remotes ==> RegistryOk(w.remotes[u])
    ensures var r := RemotesAfter(w, pc, outcome);
            KeepsIds(RemoteAt(w, url).ids, (if url in r then r[url] else EMPTY).ids)
  {
    assert RegistryOk(RemoteAt(w, url));
    match pc
    case Post(o, _) => PerformIsMonotone(RemoteAt(w, url), ForeignRegister(o.spec.subject, RequestOf(o.spec)), "");
    case _ =>
  }

  lemma StepKeepsIds(w: World, a: Action, url: string)
    requires Inv(w) && Enabled(w, a)
    ensures KeepsIds(RemoteAt(w, url).ids, RemoteAt(Apply(w, a), url).ids)
  {
    assert RegistryOk(RemoteAt(w, url));
    hide Inv, KeepsIds, RegistryOk, MayCreate, MayUpdate, SchemaKey.Advance, Wake;
    match a
    case Call(k, outcome) =>
      RemotesKeepIds(w, w.keys[k].pc, outcome, url);
    case Remote(u, op) =>
      PerformIsMonotone(RemoteAt(w, url), op, "");
    case _ =>
  }

  lemma RegisterFiles(r: Registry, subject: string, content: Request)
    requires RegistryOk(r)
    ensures content in Register(r, subject, content).ids
    ensures Register(r, subject, content).ids[content] == IdOf(r, subject, content)
  {
    RegisterKeepsOk(r, subject, content);
    HeldIsFiled(Register(r, subject, content), subject, content);
    hide Register;
  }

  /** The answer of a registration is what the registry then has on file. */
  lemma AnswerIsFiled(w: World, k: Key, outcome: Outcome, a: Ack)
    requires Inv(w) && Enabled(w, Call(k, outcome)) && a in AcksAfter(w, k, w.keys[k].pc, outcome) && a !in w.acks
    ensures Filed(Apply(w, Call(k, outcome)), a)
  {
    var pc := w.keys[k].pc;
    assert RegistryOk(RemoteAt(w, pc.url));
    assert a.url == pc.url && a.request == RequestOf(pc.obj.spec) && pc.Post? && outcome.Done? &&
           a.id == IdOf(RemoteAt(w, pc.url), pc.obj.spec.subject, a.request) by { hide Inv, RegistryOk, Apply, IdOf; }
    CallSeen(w, k, outcome);
    hide Inv, RegistryOk, Apply, Enabled, AcksAfter, SchemaKey.Advance, InputFor, RequestOf;
    RegisterFiles(RemoteAt(w, pc.url), pc.obj.spec.subject, a.request);
    hide Register, IdOf;
  }

  lemma StepKeepsFiled(w: World, a: Action)
    requires Inv(w) && Enabled(w, a) && AllFiled(w)
    ensures AllFiled(Apply(w, a))
  {
    var w' := Apply(w, a);
    forall x | x in w'.acks ensures Filed(w', x) {
      if x in w.acks {
        hide Inv, Enabled, Apply;
        assert Filed(w, x);
        StepKeepsIds(w, a, x.url);
      } else {
        NewAck(w, a, x);
        hide Inv, Enabled, Apply, AcksAfter;
        AnswerIsFiled(w, a.key, a.outcome, x);
      }
    }
  }

  lemma NewAck(w: World, a: Action, x: Ack)
    requires Enabled(w, a) && x in Apply(w, a).acks && x !in w.acks
    ensures a.Call? && x in AcksAfter(w, a.key, w.keys[a.key].pc, a.outcome)
  {
    hide SchemaKey.Advance, RemotesAfter, LedgerAfter, AbandonedAfter, AcksAfter, Wake, MayCreate, MayUpdate;
  }

  lemma {:induction false} RunKeepsFiled(w: World, run: seq<Action>)
    requires Inv(w) && AllFiled(w) && ValidRun(w, run)
    ensures AllFiled(Run(w, run))
    decreases |run|
  {
    hide Inv, AllFiled;
    if run != [] {
      StepKeepsFiled(w, run[0]);
      ApplyKeeps(w, run[0]);
      RunKeepsFiled(Apply(w, run[0]), run[1..]);
    }
  }

  /** In every reachable state every answer the operator ever got is still what the registry at that URL
      has on file, deletions notwithstanding: an id belongs to one request there for ever. */
  lemma AnswersStayTrue(w: World, a: Ack)
    requires Reachable(w) && a in w.acks
    ensures Filed(w, a)
    ensures forall b :: b in w.acks && b.url == a.url ==> (b.id == a.id <==> b.request == a.request)
  {
    var start, run :| Initial(start) && Reaches(start, run, w);
    InitialInv(start);
    assert AllFiled(start);
    RunKeepsFiled(start, run);
    ReachableInv(w);
    assert RegistryOk(RemoteAt(w, a.url));
    forall b | b in w.acks && b.url == a.url ensures b.id == a.id <==> b.request == a.request {
      assert Filed(w, b);
    }
    hide Inv, Initial;
  }

  /** A reconcile about to report success has an answer for the specification its status will stand
      beside if and only if that specification still asks for what was posted: that is, if the
      object read again has the same text, type and references (`RequestIdentifies`). */
  lemma ReportsItsOwnTextExactly(w: World, k: Key)
    requires Reachable(w) && k in w.keys && w.keys[k].pc.StatusWrite?
    ensures var pc := w.keys[k].pc;
            Acknowledged(w, k, pc.obj, pc.url, pc.id) <==> Asks(pc.posted, pc.obj.spec)
  {
    InvAt(w, k);
    var pc := w.keys[k].pc;
    AcknowledgedMeans(w, k, pc.obj, pc.url, pc.id);
    RequestAsks(pc.obj.spec, pc.posted);
    hide Acknowledged, Asks;
    var mine := Ack(k, pc.obj.inc, pc.url, pc.obj.spec.subject, pc.posted, pc.id);
    assert mine in w.acks;
    AnswersStayTrue(w, mine);
    hide KeyInv, LinkInv, Filed, Reachable;
  }

  /** So the stored status says "Ready at this generation" for a text that was registered exactly
      in that case, and for a text that was not in every other. */
  lemma ReadyIsTrueExactly(w: World, k: Key, outcome: Outcome)
    requires Reachable(w) && Enabled(w, Call(k, outcome)) && w.keys[k].pc.StatusWrite? && !outcome.Refused?
    requires Current(w.keys[k].slot, w.keys[k].pc.obj)
    ensures var pc := w.keys[k].pc;
            var w' := Apply(w, Call(k, outcome));
            && Live(w'.keys[k].slot).Some?
            && var o := Live(w'.keys[k].slot).value;
            && Ready(o).Some? && Ready(o).value.status == IsTrue && o.status.observedGeneration == o.generation
            && o.status.schemaId == Some(pc.id)
            && (Acknowledged(w', k, o, pc.url, pc.id) <==> Asks(pc.posted, o.spec))
  {
    InvAt(w, k);
    ReportsItsOwnTextExactly(w, k);
    hide Asks;
    var ks := w.keys[k];
    CurrentMeansSame(w.json, ks);
    assert FINALIZER in ks.pc.obj.finalizers by { assert ThreadOk(ks); }
    ReportStored(w, k, outcome);
    hide KeyInv, LinkInv, Reachable, Apply, Enabled, Current;
  }

  lemma ReportStored(w: World, k: Key, outcome: Outcome)
    requires Enabled(w, Call(k, outcome)) && w.keys[k].pc.StatusWrite? && !outcome.Refused?
    requires Live(w.keys[k].slot) == Some(w.keys[k].pc.obj) && w.keys[k].pc.obj.finalizers != {}
    ensures var pc := w.keys[k].pc;
            var w' := Apply(w, Call(k, outcome));
            && k in w'.keys && w'.acks == w.acks && Live(w'.keys[k].slot).Some?
            && var o := Live(w'.keys[k].slot).value;
            && o.inc == pc.obj.inc && o.spec == pc.obj.spec && o.generation == pc.obj.generation
            && o.status == RegisteredStatus(pc.obj, pc.id, pc.version, pc.now)
            && Ready(o).Some? && Ready(o).value.status == IsTrue && o.status.observedGeneration == o.generation
  {
    var pc := w.keys[k].pc;
    CallSeen(w, k, outcome);
    RegisteredIsReady(pc.obj, pc.id, pc.version, pc.now);
    hide RemotesAfter, LedgerAfter, AbandonedAfter, RegisteredStatus, FindCondition, InputFor;
  }

  lemma RegisteredIsReady(o: Schema, id: nat, version: nat, now: nat)
    ensures var n := o.(status := RegisteredStatus(o, id, version, now));
            && Ready(n).Some? && Ready(n).value.status == IsTrue && n.status.observedGeneration == o.generation
            && n.status.schemaId == Some(id)
            && Ready(n).value.message == RegisteredAs(id, version) && Ready(n).value.observedGeneration == o.generation
  {
    SetStatusConditionMeaning(o.status.conditions,
      Condition(READY, IsTrue, "Registered", RegisteredAs(id, version), o.generation, now), now, "");
    hide FindCondition, SetStatusCondition;
  }
}
