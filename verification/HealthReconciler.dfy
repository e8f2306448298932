/** The SchemaRegistry controller's `Reconcile` in its own shape, proved to follow `Health.Advance`
    call by call, so that a reconcile only ever extends a run of the system, and to leave behind what it
    promises. As for Schemas, every call lets the rest of the system act first. */
module HealthReconciler {
  import opened Kube
  import opened Auth
  import opened Health
  import opened HealthProofs
  import opened HealthHistory

  datatype Turn = Turn(moves: seq<Action>, outcome: Outcome)

  datatype Verdict = NoRequeue | RequeueAfter | Failure

  function AfterGet(pc: Pc, got: Option<Object>, now: nat): Pc {
    match pc
    case Start => if got.None? then Idle else LoadAuth(got.value)
    case Fetch(_, error) => if got.None? then Idle else Write(got.value, error, now)
    case FailFetch(_, cause) => if got.None? then Idle else FailWrite(got.value, cause, now)
    case _ => pc
  }

  // ----- the recorded run -----

  /** The recorded run starts at the beginning and leads to this world. */
  ghost predicate Recorded(origin: World, trace: seq<Action>, w: World) {
    Initial(origin) && Reaches(origin, trace, w)
  }

  lemma RecordedIsReachable(origin: World, trace: seq<Action>, w: World)
    requires Recorded(origin, trace, w)
    ensures Reachable(w)
  {
    hide Initial, Reaches;
  }

  /** Everything except this key's own reconcile, and a restart, which would end it. */
  predicate Foreign(key: Key, a: Action) {
    !a.Restart? && !(a.Call? && a.key == key) && !(a.Dequeue? && a.key == key)
  }

  /** A step of this very reconcile. */
  predicate Own(key: Key, a: Action) {
    a.Call? && a.key == key
  }

  /** The run has grown by calls of this reconcile and by what others did meanwhile, and by nothing else. */
  ghost predicate Extends(key: Key, before: seq<Action>, after: seq<Action>) {
    before <= after && forall i :: |before| <= i < |after| ==> Foreign(key, after[i]) || Own(key, after[i])
  }

  lemma ExtendsIsTransitive(key: Key)
    ensures forall a :: Extends(key, a, a)
    ensures forall a, b, c :: Extends(key, a, b) && Extends(key, b, c) ==> Extends(key, a, c)
  {
  }

  ghost predicate OnlyForeign(key: Key, before: seq<Action>, after: seq<Action>) {
    before <= after && forall i :: |before| <= i < |after| ==> Foreign(key, after[i])
  }

  /** The first own call of the new part of the run found this in the cache. */
  ghost predicate StartsFrom(key: Key, origin: World, before: seq<Action>, after: seq<Action>, got: Option<Object>) {
    exists n, w: World :: StartsFromAt(key, origin, before, after, got, n, w)
  }

  ghost predicate StartsFromAt(key: Key, origin: World, before: seq<Action>, after: seq<Action>, got: Option<Object>,
      n: int, w: World) {
    && |before| <= n < |after| && Own(key, after[n])
    && OnlyForeign(key, before, after[..n])
    && Recorded(origin, after[..n], w) && key in w.keys && Cached(w.keys[key].slot) == got
  }

  lemma StartsFromStays(key: Key, origin: World, before: seq<Action>, after: seq<Action>, longer: seq<Action>,
      got: Option<Object>)
    requires StartsFrom(key, origin, before, after, got) && after <= longer
    ensures StartsFrom(key, origin, before, longer, got)
  {
    hide Recorded, OnlyForeign;
    var n, w: World :| StartsFromAt(key, origin, before, after, got, n, w);
    assert after[..n] == longer[..n];
    assert StartsFromAt(key, origin, before, longer, got, n, w);
  }

  lemma RecordExtends(origin: World, trace: seq<Action>, w: World, a: Action, key: Key)
    requires Recorded(origin, trace, w) && Enabled(w, a) && key in w.keys && (Foreign(key, a) || Own(key, a))
    ensures Recorded(origin, trace + [a], Apply(w, a)) && Extends(key, trace, trace + [a]) && key in Apply(w, a).keys
  {
    hide Initial;
    KeysStay(w, a, key);
    hide Enabled, Apply;
    RunAppend(origin, trace, a);
  }

  lemma KeysStay(w: World, a: Action, k: Key)
    requires Enabled(w, a) && k in w.keys
    ensures k in Apply(w, a).keys
  {
    hide Advance, CachedSecrets, WokenBy, UserStore;
  }

  lemma ForeignKeepsPc(w: World, a: Action, key: Key)
    requires Enabled(w, a) && key in w.keys && Foreign(key, a)
    ensures key in Apply(w, a).keys && Apply(w, a).keys[key].pc == w.keys[key].pc
  {
    hide Advance, CachedSecrets, WokenBy, UserStore;
  }

  // ----- what the calls store, and what they mean -----

  /** A status update that succeeds stores exactly what was sent. */
  lemma StatusIsStored(w: World, k: Key, outcome: Outcome, sent: Object)
    requires Reachable(w) && k in w.keys && HasObj(w.keys[k].pc) && sent == w.keys[k].pc.obj.(status := sent.status)
    ensures Written(w.keys[k], ApiUpdateStatus(w.keys[k].slot, sent), outcome).1 ==>
              IsStored(Written(w.keys[k], ApiUpdateStatus(w.keys[k].slot, sent), outcome).0.slot, sent)
  {
    ReachableInv(w);
    assert KeyInv(w.keys[k]);
    hide Inv, Coherent, Reachable;
  }

  /** A status update is accepted exactly when the object in hand is still the live one. */
  lemma StatusReplaces(w: World, k: Key, sent: Object)
    requires Reachable(w) && k in w.keys && HasObj(w.keys[k].pc) && sent == w.keys[k].pc.obj.(status := sent.status)
    ensures ApiUpdateStatus(w.keys[k].slot, sent).Some? <==> Live(w.keys[k].slot) == Some(w.keys[k].pc.obj)
  {
    ReachableInv(w);
    assert KeyInv(w.keys[k]);
    hide Inv, Coherent, Reachable;
  }

  /** A report does not depend on the resource version that its store got. */
  lemma StoredReports(fetched: Object, sent: Object, s: Slot<Object>, passed: bool)
    requires sent == fetched.(status := sent.status)
    ensures IsStored(s, sent) && CheckReport(fetched, sent.(rv := 0), passed) ==>
              CheckReport(fetched, Live(s).value, passed)
    ensures IsStored(s, sent) && LoadReport(fetched, sent.(rv := 0)) ==> LoadReport(fetched, Live(s).value)
  {
    hide OthersUntouched, FindCondition;
  }

  /** The object is as it was sent, up to its resource version. */
  ghost predicate IsStored(s: Slot<Object>, sent: Object) {
    Live(s).Some? && Live(s).value == sent.(rv := Live(s).value.rv)
  }

  /** The report of a health check: result, time and generation, and Ready says the same. */
  ghost predicate ReportsCheck(s: Slot<Object>, error: Option<string>) {
    && Live(s).Some?
    && var o := Live(s).value;
    && o.status.connectionStatus == (if error.Some? then "Unreachable" else "Connected")
    && o.status.observedGeneration == o.generation && o.status.lastChecked.Some?
    && Ready(o).Some?
    && Ready(o).value.(lastTransition := 0) ==
         (if error.Some? then Condition(READY, IsFalse, "ConnectionFailed", Text(error.value), o.generation, 0)
          else Condition(READY, IsTrue, "Connected", Text("Successfully connected to Schema Registry"), o.generation,
            0))
  }

  lemma CheckedStatusReports(o: Object, error: Option<string>, now: nat)
    ensures var n := o.(status := CheckedStatus(o, error, now));
            && Ready(n).Some?
            && Ready(n).value.(lastTransition := 0) ==
                 (if error.Some? then Condition(READY, IsFalse, "ConnectionFailed", Text(error.value), o.generation, 0)
                  else Condition(READY, IsTrue, "Connected", Text("Successfully connected to Schema Registry"),
                    o.generation, 0))
  {
    var c := if error.Some? then Condition(READY, IsFalse, "ConnectionFailed", Text(error.value), o.generation, now)
             else Condition(READY, IsTrue, "Connected", Text("Successfully connected to Schema Registry"), o.generation,
               now);
    SetStatusConditionMeaning(o.status.conditions, c, now, "");
    hide FindCondition, SetStatusCondition;
  }

  lemma FailedStatusReports(o: Object, cause: AuthError, now: nat)
    ensures Reports(o.(status := FailedStatus(o, cause, now)), cause)
  {
    SetStatusConditionMeaning(o.status.conditions,
      Condition(READY, IsFalse, "AuthLoadFailed", Text(ErrorText(cause)), o.generation, now), now, "");
    hide FindCondition, SetStatusCondition, ErrorText;
  }

  /** The outcome of loading credentials, as a reconcile tells it. */
  function ErrorOf(r: Result<AuthConfig, AuthError>): Option<AuthError> {
    if r.Err? then Some(r.error) else None
  }

  /** Unless the key has been queued again, what was learned from the first Secret still holds when the
      second is read. */
  lemma SecondReadCompletes(w: World, k: Key)
    requires Reachable(w) && k in w.keys && w.keys[k].pc.LoadCa? && !w.keys[k].dirty
    ensures var pc := w.keys[k].pc;
            Load(w.parse, k.namespace, pc.obj.spec, CachedSecrets(w)) ==
              ReadCa(k.namespace, pc.config, pc.caName, CachedSecrets(w))
  {
    ReachableInv(w);
    assert AuthInv(w, k);
    hide Inv, ReadFirst, ReadCa, CachedSecrets, Reachable;
  }

  class SchemaRegistryReconciler {
    const key: Key
    var world: World
    var script: seq<Turn>
    ghost const origin: World
    ghost var trace: seq<Action>

    /** The last call ended the reconcile and asked for a retry, whatever timers were pending. */
    ghost var retried: bool

    /** The world in which the last call was made, and how the call ended. */
    var last: World
    var ending: Outcome

    ghost predicate Valid()
      reads this
    {
      key in world.keys && Recorded(origin, trace, world)
    }

    function At(): Pc
      requires key in world.keys
      reads this
    {
      world.keys[key].pc
    }

    /** The last action of the run is the last call, and its effect is the last thing that happened. */
    ghost predicate Called(pc: Pc)
      reads this
    {
      && key in last.keys && last.keys[key].pc == pc
      && Enabled(last, Call(key, ending)) && world == Apply(last, Call(key, ending))
      && |trace| > 0 && trace[|trace| - 1] == Call(key, ending)
    }

    function Stored(): Slot<Object>
      requires key in world.keys
      reads this
    {
      world.keys[key].slot
    }

    constructor (key: Key, world: World, script: seq<Turn>, ghost origin: World, ghost trace: seq<Action>)
      requires key in world.keys && Recorded(origin, trace, world)
      ensures Valid() && this.key == key && this.world == world && this.origin == origin && this.trace == trace &&
              !retried
    {
      this.key, this.world, this.script, this.origin, this.trace, this.retried :=
        key, world, script, origin, trace, false;
      last, ending := world, Done;
    }

    method Record(a: Action)
      requires Valid() && Enabled(world, a) && (Foreign(key, a) || Own(key, a))
      modifies this`world, this`trace
      ensures Valid() && Extends(key, old(trace), trace)
      ensures world == Apply(old(world), a) && trace == old(trace) + [a]
    {
      RecordExtends(origin, trace, world, a, key);
      hide Enabled, Apply, Recorded, Extends, Foreign, Own;
      world := Apply(world, a);
      trace := trace + [a];
    }

    /** The others' moves; moves that are not possible are skipped. */
    method Others(moves: seq<Action>)
      requires Valid()
      modifies this`world, this`trace
      ensures Valid() && Extends(key, old(trace), trace) && OnlyForeign(key, old(trace), trace)
      ensures At() == old(At())
    {
      ExtendsIsTransitive(key);
      hide Enabled, Apply, Recorded, Extends, Foreign;
      for i := 0 to |moves|
        invariant Valid() && Extends(key, old(trace), trace) && OnlyForeign(key, old(trace), trace)
        invariant At() == old(At())
      {
        if Foreign(key, moves[i]) && Enabled(world, moves[i]) {
          ForeignKeepsPc(world, moves[i], key);
          Record(moves[i]);
        }
      }
    }

    /** One call: the others act, then the call takes place. */
    method Act()
      requires Valid() && !At().Idle?
      modifies this
      ensures Valid() && Extends(key, old(trace), trace)
      ensures Called(old(At())) && Reachable(last)
      ensures OnlyForeign(key, old(trace), trace[..|trace| - 1])
      ensures Recorded(origin, trace[..|trace| - 1], last)
      ensures world.parse == last.parse && world.secrets == last.secrets && world.clock == last.clock
      ensures world.keys[key] ==
              Advance(last.parse, key.namespace, CachedSecrets(last), last.keys[key], ending, last.clock)
      ensures retried ==
              Advance(last.parse, key.namespace, CachedSecrets(last), last.keys[key].(timer := false), ending,
                last.clock).timer
    {
      ExtendsIsTransitive(key);
      hide Extends;
      var turn := if script == [] then Turn([], Done) else script[0];
      script := if script == [] then [] else script[1..];
      Others(turn.moves);
      last, ending := world, turn.outcome;
      retried :=
        Advance(world.parse, key.namespace, CachedSecrets(world), world.keys[key].(timer := false), ending,
          world.clock).timer;
      RecordedIsReachable(origin, trace, world);
      hide Advance, Recorded, CachedSecrets, Reachable;
      ghost var mid := trace;
      Record(Call(key, ending));
      assert trace[..|trace| - 1] == mid;
    }

    // ----- the API client -----

    method Get() returns (got: Option<Object>)
      requires Valid() && (At().Start? || At().Fetch? || At().FailFetch?)
      modifies this
      ensures Valid() && Extends(key, old(trace), trace)
      ensures Called(old(At()))
      ensures got == Cached(Stored()) && StartsFrom(key, origin, old(trace), trace, got)
      ensures At() == AfterGet(old(At()), got, world.clock)
      ensures !retried
    {
      Act();
      hide Recorded, Extends, OnlyForeign, Own, CachedSecrets, Reachable;
      got := Cached(world.keys[key].slot);
      assert StartsFromAt(key, origin, old(trace), trace, got, |trace| - 1, last);
    }

    /** What is sent is what is stored. */
    method UpdateStatus(sent: Object) returns (ok: bool)
      requires Valid() && (At().Write? || At().FailWrite?)
      requires At().Write? ==> sent == At().obj.(status := CheckedStatus(At().obj, At().error, At().now))
      requires At().FailWrite? ==> sent == At().obj.(status := FailedStatus(At().obj, At().cause, At().now))
      modifies this
      ensures Valid() && Extends(key, old(trace), trace)
      ensures Called(old(At()))
      ensures ok <==> ending.Done? && Live(last.keys[key].slot) == Some(old(At()).obj)
      ensures ok ==> IsStored(Stored(), sent)
      ensures At().Idle?
      ensures retried <==> !ok || old(At()).Write?
      ensures retried ==> world.keys[key].timer
    {
      Act();
      StatusIsStored(last, key, ending, sent);
      StatusReplaces(last, key, sent);
      hide Recorded, Extends, OnlyForeign, Own, Reachable, CachedSecrets, ApiUpdateStatus, CheckedStatus, FailedStatus,
           IsStored;
      ok := Written(last.keys[key], ApiUpdateStatus(last.keys[key].slot, sent), ending).1;
    }

    /** `loadAuthConfig`: the CA Secret is read by a call of its own, so that Secrets may change in
        between. If they have, the key is queued again; otherwise the ending is that of loading from
        the Secrets as the cache shows them. */
    method LoadAuthConfig(o: Object) returns (error: Option<AuthError>)
      requires Valid() && At() == LoadAuth(o)
      modifies this
      ensures Valid() && Extends(key, old(trace), trace)
      ensures At() == if error.None? then Check(o) else FailFetch(o, error.value)
      ensures !world.keys[key].dirty ==>
                error == ErrorOf(Load(world.parse, key.namespace, o.spec, CachedSecrets(world)))
    {
      ExtendsIsTransitive(key);
      hide Extends, Recorded, OnlyForeign, Own, Reachable, ReadFirst, ReadCa;
      Act();
      assert CachedSecrets(world) == CachedSecrets(last);
      match ReadFirst(last.parse, key.namespace, o.spec, CachedSecrets(last)) {
        case Failed(e) => error := Some(e);
        case Loaded(_) => error := None;
        case NeedsCa(config, name) =>
          Act();
          assert CachedSecrets(world) == CachedSecrets(last);
          if !last.keys[key].dirty { SecondReadCompletes(last, key); }
          hide CachedSecrets, Load;
          error := ErrorOf(ReadCa(key.namespace, config, name, CachedSecrets(last)));
      }
    }

    method HealthCheck(o: Object) returns (error: Option<string>)
      requires Valid() && At() == Check(o)
      modifies this
      ensures Valid() && Extends(key, old(trace), trace)
      ensures Called(old(At()))
      ensures error.None? <==> ending.Done?
      ensures At() == Fetch(o, error)
    {
      Act();
      hide Extends, Recorded, OnlyForeign, Own, Reachable, CachedSecrets;
      error := if ending.Done? then None else Some("health check failed");
    }

    // ----- the controller -----

    /** `setConditionFailed`: re-fetch, set the condition, write the status. */
    method SetConditionFailed(ghost o: Object, cause: AuthError) returns (ok: bool)
      requires Valid() && At() == FailFetch(o, cause)
      modifies this
      ensures Valid() && Extends(key, old(trace), trace)
      ensures ok && Cached(Stored()).Some? ==> Live(Stored()).Some? && Reports(Live(Stored()).value, cause)
      ensures ok && Cached(Stored()).Some? ==>
                && key in last.keys && Live(last.keys[key].slot).Some?
                && LoadReport(Live(last.keys[key].slot).value, Live(Stored()).value)
      ensures At().Idle?
      ensures retried <==> !ok
      ensures retried ==> world.keys[key].timer
    {
      ExtendsIsTransitive(key);
      hide Extends, Recorded;
      var got := Get();
      if got.None? {
        return true;
      }
      var sr := got.value;
      var now := world.clock;
      FailedStatusReports(sr, cause, now);
      LoadIsReport(sr, cause, now, 0);
      ghost var fetched := sr;
      sr := sr.(status := sr.status.(conditions := SetStatusCondition(sr.status.conditions,
              Condition(READY, IsFalse, "AuthLoadFailed", Text(ErrorText(cause)), sr.generation, now), now)));
      sr := sr.(status := sr.status.(connectionStatus := "Unreachable"));
      ok := UpdateStatus(sr);
      assert ok ==> Live(Stored()).Some? && Ready(Live(Stored()).value) == Ready(sr);
      StoredReports(fetched, sr, Stored(), false);
      hide SetStatusCondition, FindCondition, CountKind, OthersUntouched, ErrorText;
    }

    /** The re-fetch and the report of the health check. */
    method ReportHealth(ghost o: Object, error: Option<string>) returns (verdict: Verdict)
      requires Valid() && At() == Fetch(o, error)
      modifies this
      ensures Valid() && Extends(key, old(trace), trace)
      ensures verdict == NoRequeue ==> Cached(Stored()).None?
      ensures verdict == RequeueAfter ==> ReportsCheck(Stored(), error)
      ensures verdict == RequeueAfter ==>
                && key in last.keys && Live(last.keys[key].slot).Some?
                && CheckReport(Live(last.keys[key].slot).value, Live(Stored()).value, error.None?)
      ensures At().Idle?
      ensures verdict != NoRequeue <==> retried
      ensures retried ==> world.keys[key].timer
    {
      ExtendsIsTransitive(key);
      hide Extends, Recorded;
      var got := Get();
      if got.None? {
        return NoRequeue;
      }
      var sr := got.value;
      var now := world.clock;
      CheckedStatusReports(sr, error, now);
      CheckIsReport(sr, error, now, 0);
      ghost var fetched := sr;
      sr := sr.(status := sr.status.(observedGeneration := sr.generation));
      sr := sr.(status := sr.status.(lastChecked := Some(now)));
      if error.Some? {
        sr := sr.(status := sr.status.(conditions := SetStatusCondition(sr.status.conditions,
                Condition(READY, IsFalse, "ConnectionFailed", Text(error.value), sr.generation, now), now)));
        sr := sr.(status := sr.status.(connectionStatus := "Unreachable"));
      } else {
        sr := sr.(status := sr.status.(conditions := SetStatusCondition(sr.status.conditions,
                Condition(READY, IsTrue, "Connected", Text("Successfully connected to Schema Registry"), sr.generation,
                  now), now)));
        sr := sr.(status := sr.status.(connectionStatus := "Connected"));
      }
      var ok := UpdateStatus(sr);
      assert ok ==> Live(Stored()).Some? && Ready(Live(Stored()).value) == Ready(sr);
      StoredReports(fetched, sr, Stored(), error.None?);
      hide SetStatusCondition, FindCondition, CountKind, OthersUntouched;
      return if ok then RequeueAfter else Failure;
    }

    /** `Reconcile`: the run grows by the calls of this reconcile and the others' moves alone; it ends,
        and whenever it asks to be called again a retry is pending. It asks for the periodic check
        exactly when a check was made and reported; it asks for nothing only when the object has
        vanished or the failure to load its credentials has been reported. `seen` is what its first
        `Get` found in the cache. */
    method Reconcile() returns (verdict: Verdict, ghost seen: Option<Object>)
      requires Valid() && At().Start?
      modifies this
      ensures Valid() && Extends(key, old(trace), trace)
      ensures StartsFrom(key, origin, old(trace), trace, seen)
      ensures seen.None? ==> verdict == NoRequeue
      ensures verdict == NoRequeue && Cached(Stored()).Some? ==>
                Live(Stored()).Some? && exists cause :: Reports(Live(Stored()).value, cause)
      ensures verdict == RequeueAfter ==> seen.Some? && exists error :: ReportsCheck(Stored(), error)
      ensures At().Idle?
      ensures verdict != NoRequeue <==> retried
      ensures retried ==> world.keys[key].timer
    {
      ExtendsIsTransitive(key);
      hide Recorded, CachedSecrets, ReadFirst, ReadCa, Load, StartsFrom, Reports, ReportsCheck;
      var got := Get();
      seen := got;
      ghost var start, read := old(trace), trace;
      if got.None? {
        return NoRequeue, seen;
      }
      var sr := got.value;
      var authError := LoadAuthConfig(sr);
      if authError.Some? {
        var ok := SetConditionFailed(sr, authError.value);
        StartsFromStays(key, origin, start, read, trace, seen);
        return (if ok then NoRequeue else Failure), seen;
      }
      var healthError := HealthCheck(sr);
      verdict := ReportHealth(sr, healthError);
      StartsFromStays(key, origin, start, read, trace, seen);
    }
  }
}
