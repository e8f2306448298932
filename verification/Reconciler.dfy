/** The Schema controller's `Reconcile` in its own shape: local variables edited step by step between
    calls. Every call lets the rest of the system act first; `script` says what it does and how
    each call ends. The methods are proved to follow `SchemaKey.Advance` call by call, so that a
    reconcile only ever extends a run of the system, and to leave behind what they promise. */
module Reconciler {
  import opened Kube
  import opened Api
  import opened Registry
  import opened SchemaKey
  import opened Cluster
  import opened ClusterProofs
  import opened SchemaKeyProofs
  import opened Acks
  import opened Ledger
  import opened Versions
  import opened Theorems
  import opened ReconcilerProofs

  /** What the others do before a call, and how the call ends. */
  datatype Turn = Turn(moves: seq<Action>, outcome: Outcome)

  /** The returned pair: no requeue, `RequeueAfter`, or an error. */
  datatype Verdict = NoRequeue | RequeueAfter | Failure

  class SchemaReconciler {
    const key: Key
    var world: World
    var script: seq<Turn>
    ghost const origin: World
    ghost var trace: seq<Action>

    /** The last call ended the reconcile and asked for a retry, whatever timers were pending. */
    ghost var retried: bool

    /** The world in which the last call was made, and how the call ended. */
    var last: World
    var ending: Outcome

    /** The world is where the recorded run leads. */
    ghost predicate Valid()
      reads this
    {
      key in world.keys && Recorded(origin, trace, world)
    }

    function At(): Pc
      requires key in world.keys
      reads this
    {
      world.keys[key].pc
    }

    /** The last action of the run is the last call, and its effect is the last thing that happened. */
    ghost predicate Called(pc: Pc)
      reads this
    {
      && key in last.keys && last.keys[key].pc == pc
      && Enabled(last, Call(key, ending)) && world == Apply(last, Call(key, ending))
      && |trace| > 0 && trace[|trace| - 1] == Call(key, ending)
    }

    function Stored(): Slot<Schema>
      requires key in world.keys
      reads this
    {
      world.keys[key].slot
    }

    constructor (key: Key, world: World, script: seq<Turn>, ghost origin: World, ghost trace: seq<Action>)
      requires key in world.keys && Recorded(origin, trace, world)
      ensures Valid() && this.key == key && this.world == world && this.origin == origin && this.trace == trace &&
              !retried
    {
      this.key, this.world, this.script, this.origin, this.trace, this.retried :=
        key, world, script, origin, trace, false;
      last, ending := world, Done;
    }

    method Record(a: Action)
      requires Valid() && Enabled(world, a) && (Foreign(key, a) || Own(key, a))
      modifies this`world, this`trace
      ensures Valid() && Leads(key, old(trace), old(world), trace, world)
      ensures world == Apply(old(world), a) && trace == old(trace) + [a]
    {
      RecordLeads(origin, trace, world, a, key);
      hide Enabled, Apply, Recorded, Leads, Foreign, Own;
      world := Apply(world, a);
      trace := trace + [a];
    }

    /** The others' moves; moves that are not possible are skipped. */
    method Others(moves: seq<Action>)
      requires Valid()
      modifies this`world, this`trace
      ensures Valid() && Leads(key, old(trace), old(world), trace, world)
      ensures At() == old(At()) && KeepsBound(old(world.keys[key]), world.keys[key])
      ensures OnlyForeign(key, old(trace), trace)
    {
      LeadsIsTransitive(key);
      BondsAreTransitive();
      hide Enabled, Apply, Recorded, Leads, KeepsBound, Foreign;
      for i := 0 to |moves|
        invariant Valid() && Leads(key, old(trace), old(world), trace, world)
        invariant At() == old(At()) && KeepsBound(old(world.keys[key]), world.keys[key])
        invariant OnlyForeign(key, old(trace), trace)
      {
        if Foreign(key, moves[i]) && Enabled(world, moves[i]) {
          ForeignIsHarmless(world, moves[i], key);
          Record(moves[i]);
        }
      }
    }

    /** One call: the others act, then the call takes place. */
    method Act()
      requires Valid() && !At().Idle?
      modifies this
      ensures Valid() && Leads(key, old(trace), old(world), trace, world)
      ensures Called(old(At())) && Reachable(last)
      ensures KeepsBound(old(world.keys[key]), last.keys[key])
      ensures OnlyForeign(key, old(trace), trace[..|trace| - 1])
      ensures Recorded(origin, trace[..|trace| - 1], last)
      ensures world.keys[key] == SchemaKey.Advance(last.json, last.keys[key], InputFor(last, key, ending))
      ensures world.remotes == RemotesAfter(last, old(At()), ending) && world.registries == last.registries
      ensures world.clock == last.clock && world.keys[key].slot.seen == last.keys[key].slot.seen
      ensures retried ==
              SchemaKey.Advance(last.json, last.keys[key].(timer := false), InputFor(last, key, ending)).timer
    {
      LeadsIsTransitive(key);
      hide Leads;
      var turn := if script == [] then Turn([], Done) else script[0];
      script := if script == [] then [] else script[1..];
      Others(turn.moves);
      last, ending := world, turn.outcome;
      retried := SchemaKey.Advance(world.json, world.keys[key].(timer := false), InputFor(world, key, ending)).timer;
      CallSeen(world, key, ending);
      AdvanceKeepsSeen(world.json, world.keys[key], InputFor(world, key, ending));
      RecordedIsReachable(origin, trace, world);
      hide SchemaKey.Advance, Apply, Enabled, Recorded, Reachable, RemotesAfter, InputFor, KeepsBound;
      ghost var mid := trace;
      Record(Call(key, ending));
      assert trace[..|trace| - 1] == mid;
    }

    // ----- the API client -----

    /** Reads the cache; a re-fetch that finds anything finds the same object. */
    method Get() returns (got: Option<Schema>)
      requires Valid() && (At().Start? || At().Refetch? || At().StatusFetch? || At().FailFetch?)
      modifies this
      ensures Valid() && Leads(key, old(trace), old(world), trace, world)
      ensures Called(old(At()))
      ensures got == Cached(Stored()) && StartsFrom(key, origin, old(trace), trace, got)
      ensures At() == AfterGet(old(At()), got, world.clock)
      ensures !old(At()).Start? && got.Some? ==> got.value.inc == old(At()).obj.inc
      ensures retried <==> old(At()).FailFetch? && got.None?
      ensures retried ==> world.keys[key].timer
    {
      Act();
      GetAdvances(last.json, last.keys[key], InputFor(last, key, ending));
      GetAdvances(last.json, last.keys[key].(timer := false), InputFor(last, key, ending));
      if !last.keys[key].pc.Start? && Cached(last.keys[key].slot).Some? { RefetchedIsSame(last, key); }
      assert InputFor(last, key, ending).now == last.clock;
      hide Recorded, OnlyForeign, Leads, Apply, Enabled, Reachable, SchemaKey.Advance, RemotesAfter, KeepsBound,
           InputFor, Own;
      assert StartsFromAt(key, origin, old(trace), trace, Cached(last.keys[key].slot), |trace| - 1, last);
      got := Cached(world.keys[key].slot);
    }

    method GetSchemaRegistry(o: Schema) returns (url: Option<string>)
      requires Valid() && (At() == GetRegistry(o) || At() == CleanupGetRegistry(o))
      modifies this
      ensures Valid() && Leads(key, old(trace), old(world), trace, world)
      ensures Called(old(At()))
      ensures KeepsBound(old(world.keys[key]), world.keys[key])
      ensures url == UrlFor(world, key, o)
      ensures old(At()).GetRegistry? ==>
                At() == if url.None? then FailFetch(o, "ClientBuildFailed", Text("failed to get SchemaRegistry"))
                  else LoadAuth(o, url.value)
      ensures old(At()).CleanupGetRegistry? ==>
                At() == if url.None? then CleanupFinalize(o, None) else CleanupLoadAuth(o, url.value)
    {
      BondsAreTransitive();
      Act();
      CallKeepsBond(last, key, ending);
      hide Recorded, Leads, Apply, Enabled, Reachable, ApiUpdate, ApiUpdateStatus, KeepsBound;
      url := UrlFor(world, key, o);
      assert url == UrlFor(last, key, o);
    }

    method LoadAuthConfig(o: Schema, url: string) returns (ok: bool)
      requires Valid() && (At() == LoadAuth(o, url) || At() == CleanupLoadAuth(o, url))
      modifies this
      ensures Valid() && Leads(key, old(trace), old(world), trace, world)
      ensures Called(old(At()))
      ensures ok <==> ending.Done?
      ensures KeepsBound(old(world.keys[key]), world.keys[key])
      ensures old(At()).LoadAuth? ==>
                At() == if ok then Post(o, url)
                  else FailFetch(o, "ClientBuildFailed", Text("failed to load credentials"))
      ensures old(At()).CleanupLoadAuth? ==> At() == if ok then CleanupDelete(o, url) else CleanupFinalize(o, None)
    {
      BondsAreTransitive();
      Act();
      CallKeepsBond(last, key, ending);
      hide Recorded, Leads, Apply, Enabled, Reachable, ApiUpdate, ApiUpdateStatus, KeepsBound;
      ok := ending.Done?;
    }

    /** What is sent is what is stored. */
    method Update(sent: Schema) returns (ok: bool)
      requires Valid() && (At().AddFinalizer? || At().CleanupFinalize?)
      requires At().AddFinalizer? ==> sent == At().obj.(finalizers := At().obj.finalizers + {FINALIZER})
      requires At().CleanupFinalize? ==> sent == At().obj.(finalizers := At().obj.finalizers - {FINALIZER})
      modifies this
      ensures Valid() && Leads(key, old(trace), old(world), trace, world)
      ensures Called(old(At()))
      ensures ok <==> ending.Done? && Current(last.keys[key].slot, sent)
      ensures ok ==> IsStored(Stored(), sent)
      ensures ok && old(At()).AddFinalizer? ==> At() == Refetch(old(At()).obj)
      ensures !ok || old(At()).CleanupFinalize? ==> At().Idle?
      ensures retried <==> !ok
      ensures retried ==> world.keys[key].timer
    {
      Act();
      FinalizersChange(last, key);
      FinalizersAreStored(last, key, ending, sent);
      WebhookNeverBlocks(last, key, sent.finalizers);
      hide Recorded, Leads, Apply, Enabled, Reachable, ApiUpdate, ApiUpdateStatus, RemotesAfter, KeepsBound, IsStored;
      ok := Written(last.keys[key], ApiUpdate(last.json, last.keys[key].slot, sent), ending).1;
    }

    method UpdateStatus(sent: Schema) returns (ok: bool)
      requires Valid() && (At().StatusWrite? || At().FailWrite?)
      requires At().StatusWrite? ==>
                 sent == At().obj.(status := RegisteredStatus(At().obj, At().id, At().version, At().now))
      requires At().FailWrite? ==>
                 sent == At().obj.(status := FailedStatus(At().obj, At().reason, At().message, At().now))
      modifies this
      ensures Valid() && Leads(key, old(trace), old(world), trace, world)
      ensures Called(old(At()))
      ensures ok <==> ending.Done? && Current(last.keys[key].slot, sent)
      ensures ok ==> Live(last.keys[key].slot) == Some(old(At()).obj)
      ensures ok ==> IsStored(Stored(), sent) && FINALIZER in sent.finalizers
      ensures At().Idle?
      ensures retried <==> !ok || old(At()).FailWrite?
      ensures retried ==> world.keys[key].timer
    {
      Act();
      StatusStored(last, key, ending, sent);
      StatusReplaces(last, key, sent);
      StatusIsStored(last, key, ending, sent);
      hide Recorded, Leads, Apply, Enabled, Reachable, ApiUpdate, ApiUpdateStatus, RegisteredStatus, FailedStatus,
           RemotesAfter, KeepsBound, IsStored;
      ok := Written(last.keys[key], ApiUpdateStatus(last.keys[key].slot, sent), ending).1;
    }

    // ----- the registry client -----

    /** A registration takes effect unless it is refused, whether or not the answer arrives. */
    method PostVersion(o: Schema, url: string, request: Request) returns (id: Option<nat>)
      requires Valid() && At() == Post(o, url) && request == RequestOf(o.spec)
      modifies this
      ensures Valid() && Leads(key, old(trace), old(world), trace, world)
      ensures Called(old(At()))
      ensures Asks(request, o.spec)
      ensures At() == if id.None? then FailFetch(o, "RegistrationFailed", Text("failed to register schema"))
              else Latest(o, url, id.value)
      ensures RemoteAt(world, url) ==
                if ending.Refused? then RemoteAt(last, url)
                  else Register(RemoteAt(last, url), o.spec.subject, request)
      ensures id == if ending.Done? then Some(IdOf(RemoteAt(last, url), o.spec.subject, request)) else None
      ensures id.Some? ==> Holds(RemoteAt(world, url), o.spec.subject, request)
      ensures id.Some? ==> Ack(key, o.inc, url, o.spec.subject, request, id.value) in world.acks
    {
      Act();
      RegisterHolds(RemoteAt(last, url), o.spec.subject, request);
      RequestAsks(o.spec, request);
      id := if ending.Done? then Some(IdFor(RemoteAt(world, url), request)) else None;
      assert ending.Done? ==> world.acks == AcksAfter(last, key, last.keys[key].pc, ending) by {
        hide Recorded, Leads, Reachable, ApiUpdate, ApiUpdateStatus, RemotesAfter, LedgerAfter, AbandonedAfter,
             SchemaKey.Advance, AcksAfter;
      }
      hide Recorded, Leads, Apply, Enabled, Reachable, ApiUpdate, ApiUpdateStatus, Register, Holds, KeepsBound,
           Asks;
    }

    /** The newest version of the subject, or 0 if the lookup fails. */
    method GetLatestVersion(o: Schema, url: string, id: nat) returns (version: nat)
      requires Valid() && At() == Latest(o, url, id)
      modifies this
      ensures Valid() && Leads(key, old(trace), old(world), trace, world)
      ensures Called(old(At()))
      ensures At() == if o.spec.compatibilityLevel != "" then Compat(o, url, id, version)
              else StatusFetch(o, url, id, version)
      ensures ending.Done? && LatestVersion(RemoteAt(world, url), o.spec.subject).Some? ==>
                LatestVersion(RemoteAt(world, url), o.spec.subject) == Some(version)
      ensures !ending.Done? || LatestVersion(RemoteAt(world, url), o.spec.subject).None? ==> version == 0
    {
      Act();
      hide Recorded, Leads, Apply, Enabled, Reachable, ApiUpdate, ApiUpdateStatus, KeepsBound;
      version := ReportedVersion(RemoteAt(last, url), o.spec.subject, ending);
    }

    /** The POST, and then the lookup whose failure is not fatal. The id is an answer to this request, and the
        registry has the request on file under it; the version is the newest or 0. */
    method RegisterSchema(o: Schema, url: string, request: Request) returns (r: Option<(nat, nat)>)
      requires Valid() && At() == Post(o, url) && request == RequestOf(o.spec)
      modifies this
      ensures Valid() && Leads(key, old(trace), old(world), trace, world)
      ensures Asks(request, o.spec)
      ensures r.None? ==> At() == FailFetch(o, "RegistrationFailed", Text("failed to register schema"))
      ensures r.Some? ==> At() == if o.spec.compatibilityLevel != "" then Compat(o, url, r.value.0, r.value.1)
                                  else StatusFetch(o, url, r.value.0, r.value.1)
      ensures r.Some? ==>
                var a := Ack(key, o.inc, url, o.spec.subject, request, r.value.0); a in world.acks && Filed(world, a)
      ensures r.Some? ==> r.value.1 == 0 || LatestVersion(RemoteAt(world, url), o.spec.subject) == Some(r.value.1)
    {
      LeadsIsTransitive(key);
      hide Recorded;
      var id := PostVersion(o, url, request);
      if id.None? {
        return None;
      }
      var version := GetLatestVersion(o, url, id.value);
      RecordedIsReachable(origin, trace, world);
      AnswersStayTrue(world, Ack(key, o.inc, url, o.spec.subject, request, id.value));
      hide Filed, Reachable, Extends, Asks;
      return Some((id.value, version));
    }

    method SetCompatibility(o: Schema, url: string, id: nat, version: nat) returns (ok: bool)
      requires Valid() && At() == Compat(o, url, id, version)
      modifies this
      ensures Valid() && Leads(key, old(trace), old(world), trace, world)
      ensures Called(old(At()))
      ensures ok <==> ending.Done?
      ensures At() == StatusFetch(o, url, id, version)
      ensures ok ==>
                o.spec.subject in RemoteAt(world, url).levels &&
                  RemoteAt(world, url).levels[o.spec.subject] == o.spec.compatibilityLevel
    {
      Act();
      hide Recorded, Leads, Apply, Enabled, Reachable, ApiUpdate, ApiUpdateStatus, KeepsBound;
      ok := ending.Done?;
    }

    /** A subject that is not there counts as deleted. Failure leaves the finalizer where it is. */
    method DeleteSubject(o: Schema, url: string) returns (ok: bool)
      requires Valid() && At() == CleanupDelete(o, url)
      modifies this
      ensures Valid() && Leads(key, old(trace), old(world), trace, world)
      ensures Called(old(At()))
      ensures KeepsBound(old(world.keys[key]), world.keys[key])
      ensures RemoteAt(world, url) ==
                if ending.Refused? then RemoteAt(last, url) else Delete(RemoteAt(last, url), o.spec.subject)
      ensures ok <==> ending.Done?
      ensures ok ==> At() == CleanupFinalize(o, Some(url)) && o.spec.subject !in RemoteAt(world, url).subjects
      ensures !ok ==> At().Idle? && retried && world.keys[key].timer
    {
      BondsAreTransitive();
      Act();
      CallKeepsBond(last, key, ending);
      hide Recorded, Leads, Apply, Enabled, Reachable, ApiUpdate, ApiUpdateStatus, KeepsBound;
      ok := ending.Done?;
    }

    // ----- the controller -----

    /** `buildClient`, reduced to the URL the client will talk to: one that the very registry referenced
        by `o` has been seen with. */
    method BuildClient(o: Schema) returns (url: Option<string>)
      requires Valid() && (At() == GetRegistry(o) || At() == CleanupGetRegistry(o))
      modifies this
      ensures Valid() && Leads(key, old(trace), old(world), trace, world)
      ensures KeepsBound(old(world.keys[key]), world.keys[key])
      ensures url.Some? ==> ReferencedUrl(world, key, o, url.value)
      ensures old(At()).GetRegistry? ==>
                if url.Some? then At() == Post(o, url.value)
                else At().FailFetch? && At().obj == o && At().reason == "ClientBuildFailed"
      ensures old(At()).CleanupGetRegistry? ==>
                At() == if url.Some? then CleanupDelete(o, url.value) else CleanupFinalize(o, None)
    {
      LeadsIsTransitive(key);
      BondsAreTransitive();
      hide Recorded, KeepsBound, Extends;
      url := GetSchemaRegistry(o);
      if url.None? {
        return None;
      }
      ghost var found := world;
      LookupIsReferenced(world, key, o);
      hide Later, ReferencedUrl;
      var ok := LoadAuthConfig(o, url.value);
      ReferencedStays(key, found, world, o, url.value);
      if !ok {
        return None;
      }
    }

    /** `deleteFromRegistry`: a client that cannot be built is no reason to keep the finalizer, and a
        failed DELETE is. */
    method DeleteFromRegistry(o: Schema) returns (ok: bool)
      requires Valid() && At() == CleanupGetRegistry(o)
      modifies this
      ensures Valid() && Leads(key, old(trace), old(world), trace, world)
      ensures KeepsBound(old(world.keys[key]), world.keys[key])
      ensures ok ==> At().CleanupFinalize? && At().obj == o
      ensures ok && At().cleaned.Some? ==>
                o.spec.subject !in RemoteAt(world, At().cleaned.value).subjects &&
                  ReferencedUrl(world, key, o, At().cleaned.value)
      ensures !ok ==> At().Idle? && retried && world.keys[key].timer
    {
      LeadsIsTransitive(key);
      BondsAreTransitive();
      hide Recorded, KeepsBound, Extends, Later, ReferencedUrl;
      var url := BuildClient(o);
      if url.None? {
        return true;
      }
      ghost var built := world;
      var deleted := DeleteSubject(o, url.value);
      ReferencedStays(key, built, world, o, url.value);
      return deleted;
    }

    /** `setConditionFailed`: re-fetch, set the condition, write the status. What is written is the
        failure, for the generation it stands beside, and nothing else of the status. */
    method SetConditionFailed(ghost o: Schema, reason: string, message: Message) returns (ok: bool)
      requires Valid() && At() == FailFetch(o, reason, message)
      modifies this
      ensures Valid() && Leads(key, old(trace), old(world), trace, world)
      ensures ok && Cached(Stored()).Some? ==> ReportsFailure(Stored(), o.inc, reason, message)
      ensures ok && Cached(Stored()).Some? ==>
                && key in last.keys && Live(last.keys[key].slot).Some?
                && FailureReport(Live(last.keys[key].slot).value, Live(Stored()).value)
      ensures At().Idle? && retried && world.keys[key].timer
    {
      LeadsIsTransitive(key);
      hide Recorded, Leads;
      var got := Get();
      if got.None? {
        return true;
      }
      var schema := got.value;
      var now := world.clock;
      RecordedIsReachable(origin, trace, world);
      ReachableExplained(world, key);
      FailedStatusReports(schema, reason, message, now);
      FailureIsReport(schema, reason, message, now, 0);
      ghost var fetched := schema;
      schema := schema.(status := schema.status.(conditions := SetStatusCondition(schema.status.conditions,
                  Condition(READY, IsFalse, reason, message, schema.generation, now), now)));
      ok := UpdateStatus(schema);
      assert ok ==> Live(Stored()).Some? && Ready(Live(Stored()).value) == Ready(schema);
      StoredReports(fetched, schema, Stored());
      hide SetStatusCondition, FindCondition, CountKind, OthersUntouched;
    }

    /** The deletion path. It ends without an error only when the finalizer is gone; and as long as the
        DELETE has failed the finalizer stays. */
    method ReconcileDeletion(deleting: Schema) returns (verdict: Verdict)
      requires Valid() && deleting.deleting
      requires if FINALIZER in deleting.finalizers then At() == CleanupGetRegistry(deleting) else At().Idle? && !retried
      modifies this
      ensures Valid() && Leads(key, old(trace), old(world), trace, world)
      ensures verdict != RequeueAfter
      ensures FINALIZER in deleting.finalizers && verdict == NoRequeue ==>
                IsStored(Stored(), deleting.(finalizers := deleting.finalizers - {FINALIZER}))
      ensures FINALIZER !in deleting.finalizers ==> verdict == NoRequeue && world == old(world)
      ensures At().Idle?
      ensures verdict != NoRequeue <==> retried
      ensures retried ==> world.keys[key].timer
    {
      LeadsIsTransitive(key);
      hide Recorded, Leads, IsStored;
      var schema := deleting;
      if FINALIZER in schema.finalizers {
        var deleted := DeleteFromRegistry(schema);
        if !deleted {
          return Failure;
        }
        schema := schema.(finalizers := schema.finalizers - {FINALIZER});
        var ok := Update(schema);
        if !ok {
          return Failure;
        }
      }
      return NoRequeue;
    }

    /** The status update of a successful registration. */
    method ReportRegistered(ghost o: Schema, ghost url: string, id: nat, version: nat) returns (verdict: Verdict)
      requires Valid() && At() == StatusFetch(o, url, id, version)
      modifies this
      ensures Valid() && Leads(key, old(trace), old(world), trace, world)
      ensures verdict == NoRequeue && Cached(Stored()).Some? ==> ReportsRegistered(Stored(), o.inc, id, version)
      ensures verdict == NoRequeue && Cached(Stored()).Some? ==>
                && key in last.keys && Live(last.keys[key].slot).Some?
                && SuccessReport(Live(last.keys[key].slot).value, Live(Stored()).value)
      ensures verdict != RequeueAfter
      ensures At().Idle?
      ensures verdict != NoRequeue <==> retried
      ensures retried ==> world.keys[key].timer
    {
      LeadsIsTransitive(key);
      hide Recorded, Leads;
      var got := Get();
      if got.None? {
        return NoRequeue;
      }
      var schema := got.value;
      var now := world.clock;
      RegisteredStatusReports(schema, id, version, now);
      SuccessIsReport(schema, id, version, now, 0);
      ghost var fetched := schema;
      schema := schema.(status := schema.status.(schemaId := Some(id)));
      schema := schema.(status := schema.status.(version := Some(version)));
      schema := schema.(status := schema.status.(registeredAt := Some(now)));
      schema := schema.(status := schema.status.(observedGeneration := schema.generation));
      schema := schema.(status := schema.status.(conditions := SetStatusCondition(schema.status.conditions,
                  Condition(READY, IsTrue, "Registered", RegisteredAs(id, version), schema.generation, now), now)));
      var ok := UpdateStatus(schema);
      assert ok ==> Live(Stored()).Some? && Ready(Live(Stored()).value) == Ready(schema);
      StoredReports(fetched, schema, Stored());
      hide SetStatusCondition, FindCondition, CountKind, OthersUntouched;
      return if ok then NoRequeue else Failure;
    }

    /** The registration path, once the finalizer is in place. Without a requeue it ends registered: a registry
        seen for this reference answered the request built from `schema`, and the live object reports
        that answer. With `RequeueAfter` the live object reports the failure. */
    method ReconcileRegistration(schema: Schema) returns (verdict: Verdict)
      requires Valid() && At() == GetRegistry(schema)
      modifies this
      ensures Valid() && Leads(key, old(trace), old(world), trace, world)
      ensures verdict == NoRequeue && Cached(Stored()).Some? ==> Registered(world, key, schema)
      ensures verdict == RequeueAfter && Cached(Stored()).Some? ==>
                FailureReported(Stored(), schema.inc)
      ensures At().Idle?
      ensures verdict != NoRequeue <==> retried
      ensures retried ==> world.keys[key].timer
    {
      LeadsIsTransitive(key);
      hide Recorded, Extends, ConvertedReferences, RegisteredStatus, FailedStatus, ReportsFailure, ReportsRegistered;
      hide ReferencedUrl, Filed, LatestVersion;
      var url := BuildClient(schema);
      if url.None? {
        var ok := SetConditionFailed(schema, "ClientBuildFailed", At().message);
        return if ok then RequeueAfter else Failure;
      }
      ghost var built, builtTrace := world, trace;
      var references := ConvertReferences(schema.spec.references);
      var request := Request(schema.spec.schema, schema.spec.schemaType, references[..]);
      var response := RegisterSchema(schema, url.value, request);
      if response.None? {
        var ok := SetConditionFailed(schema, "RegistrationFailed", At().message);
        return if ok then RequeueAfter else Failure;
      }
      var id, version := response.value.0, response.value.1;
      ghost var answered, answeredTrace := world, trace;
      if schema.spec.compatibilityLevel != "" {
        // A failure here is not fatal.
        var _ := SetCompatibility(schema, url.value, id, version);
      }
      verdict := ReportRegistered(schema, url.value, id, version);
      assert Leads(key, builtTrace, built, trace, world) && Leads(key, answeredTrace, answered, trace, world);
      ReferencedStays(key, built, world, schema, url.value);
      assert verdict == NoRequeue && Cached(Stored()).Some? ==>
               RegisteredAt(world, key, schema, url.value, id, version);
    }

    /** `Reconcile`, from the dequeued key to the returned result. The run grows by the calls of this
        reconcile and the others' moves alone; it ends, and whenever it asks to be called again a
        retry is pending. `seen` is what its first `Get` found in the cache. */
    method Reconcile() returns (verdict: Verdict, ghost seen: Option<Schema>)
      requires Valid() && At().Start?
      modifies this
      ensures Valid() && Leads(key, old(trace), old(world), trace, world)
      ensures StartsFrom(key, origin, old(trace), trace, seen)
      ensures seen.None? || (seen.value.deleting && FINALIZER !in seen.value.finalizers) ==> verdict == NoRequeue
      ensures seen.Some? && seen.value.deleting && FINALIZER in seen.value.finalizers && verdict == NoRequeue ==>
                IsStored(Stored(), seen.value.(finalizers := seen.value.finalizers - {FINALIZER}))
      ensures seen.Some? && !seen.value.deleting && verdict == NoRequeue && Cached(Stored()).Some? ==>
                RegisteredFor(world, key, seen.value.inc)
      ensures verdict == RequeueAfter && Cached(Stored()).Some? ==>
                seen.Some? && FailureReported(Stored(), seen.value.inc)
      ensures At().Idle?
      ensures verdict != NoRequeue <==> retried
      ensures retried ==> world.keys[key].timer
    {
      LeadsIsTransitive(key);
      hide Recorded, Later, Registered, ReportsFailure, IsStored, StartsFrom;
      var got := Get();
      seen := got;
      ghost var start, read := old(trace), trace;
      if got.None? {
        return NoRequeue, seen;
      }
      var schema := got.value;
      if schema.deleting {
        verdict := ReconcileDeletion(schema);
        StartsFromStays(key, origin, start, read, trace, seen);
        return;
      }
      if FINALIZER !in schema.finalizers {
        schema := schema.(finalizers := schema.finalizers + {FINALIZER});
        var ok := Update(schema);
        StartsFromStays(key, origin, start, read, trace, seen);
        if !ok {
          return Failure, seen;
        }
        read := trace;
        got := Get();
        StartsFromStays(key, origin, start, read, trace, seen);
        read := trace;
        if got.None? {
          return NoRequeue, seen;
        }
        schema := got.value;
      }
      verdict := ReconcileRegistration(schema);
      StartsFromStays(key, origin, start, read, trace, seen);
    }
  }
}
