/** The SchemaRegistry controller's invariant, and what follows from it. */
module HealthProofs {
  import opened Kube
  import opened Api
  import opened Auth
  import opened Health

  // ----- statuses -----

  lemma CheckedIsCoherent(o: Object, error: Option<string>, now: nat)
    requires Coherent(o)
    ensures Coherent(o.(status := CheckedStatus(o, error, now)))
  {
    var c := if error.Some? then Condition(READY, IsFalse, "ConnectionFailed", Text(error.value), o.generation, now)
             else Condition(READY, IsTrue, "Connected", Text("Successfully connected to Schema Registry"), o.generation,
               now);
    SetStatusConditionMeaning(o.status.conditions, c, now, "");
    hide FindCondition, CountKind, SetStatusCondition;
  }

  lemma FailedIsCoherent(o: Object, cause: AuthError, now: nat)
    requires Coherent(o)
    ensures var n := o.(status := FailedStatus(o, cause, now)); Coherent(n) && Reports(n, cause)
  {
    var c := Condition(READY, IsFalse, "AuthLoadFailed", Text(ErrorText(cause)), o.generation, now);
    SetStatusConditionMeaning(o.status.conditions, c, now, "");
    hide FindCondition, CountKind, SetStatusCondition, ErrorText;
  }

  /** Both write paths leave every other condition alone. */
  lemma OtherConditionsUntouched(o: Object, error: Option<string>, cause: AuthError, now: nat, other: string)
    requires other != READY
    ensures FindCondition(CheckedStatus(o, error, now).conditions, other) == FindCondition(o.status.conditions, other)
    ensures FindCondition(FailedStatus(o, cause, now).conditions, other) == FindCondition(o.status.conditions, other)
    ensures CountKind(CheckedStatus(o, error, now).conditions, other) == CountKind(o.status.conditions, other)
    ensures CountKind(FailedStatus(o, cause, now).conditions, other) == CountKind(o.status.conditions, other)
  {
    SetStatusConditionMeaning(o.status.conditions,
      Condition(READY, IsFalse, "AuthLoadFailed", Text(ErrorText(cause)), o.generation, now), now, other);
    SetStatusConditionMeaning(o.status.conditions,
      if error.Some? then Condition(READY, IsFalse, "ConnectionFailed", Text(error.value), o.generation, now)
      else Condition(READY, IsTrue, "Connected", Text("Successfully connected to Schema Registry"), o.generation, now),
        now, other);
    hide FindCondition, CountKind, SetStatusCondition, ErrorText;
  }

  /** When a status write changes nothing, and so raises no event for the Schemas that use the registry:
      a report of a failure to load credentials exactly when the same failure is reported already,
      and a report of a check exactly when the same result was reported in the same clock second. */
  lemma SilentWrites(o: Object, error: Option<string>, cause: AuthError, now: nat)
    ensures FailedStatus(o, cause, now) == o.status <==> Reports(o, cause)
    ensures CheckedStatus(o, error, now) == o.status <==>
            && o.status.observedGeneration == o.generation && o.status.lastChecked == Some(now)
            && o.status.connectionStatus == (if error.Some? then "Unreachable" else "Connected")
            && Ready(o).Some?
            && Ready(o).value.(lastTransition := 0) ==
                 (if error.Some? then Condition(READY, IsFalse, "ConnectionFailed", Text(error.value), o.generation, 0)
                  else Condition(READY, IsTrue, "Connected", Text("Successfully connected to Schema Registry"),
                    o.generation, 0))
  {
    SetStatusConditionIdempotent(o.status.conditions,
      Condition(READY, IsFalse, "AuthLoadFailed", Text(ErrorText(cause)), o.generation, now), now);
    SetStatusConditionIdempotent(o.status.conditions,
      if error.Some? then Condition(READY, IsFalse, "ConnectionFailed", Text(error.value), o.generation, now)
      else Condition(READY, IsTrue, "Connected", Text("Successfully connected to Schema Registry"), o.generation, now),
        now);
    hide FindCondition, SetStatusCondition, ErrorText;
  }

  /** The errors that loading can end with. */
  predicate Possible(e: AuthError) {
    match e
    case ConfigMissing(kind) => kind == BASIC || kind == BEARER || kind == MTLS
    case SecretMissing(kind, _) => kind == BASIC || kind == BEARER || kind == MTLS
    case _ => true
  }

  lemma ConfigTextTells(kind: AuthType)
    ensures var s := ErrorText(ConfigMissing(kind));
            && |s| > 1 && BlockName(kind) <= s
            && s[0] == (if kind == BASIC || kind == BEARER then 'b' else 'm')
            && s[1] == (if kind == BASIC then 'a' else if kind == BEARER then 'e' else 't')
  {
  }

  lemma SecretTextTells(kind: AuthType, name: string)
    ensures var s := ErrorText(SecretMissing(kind, name));
            && |s| > 15 && s[0] == 'f' && s[10] == 'g'
            && s[14] == (if kind == BASIC || kind == BEARER then 'b' else 'c')
            && s[15] == (if kind == BASIC then 'a' else if kind == BEARER then 'e' else 'l')
            && s[|s| - |name|..] == name
            && |s| == |SecretName(kind)| + |name| + 22
  {
    var head := "failed to get " + SecretName(kind) + " secret ";
    assert ErrorText(SecretMissing(kind, name)) == head + name;
    assert head[10] == 'g' && head[14] == SecretName(kind)[0] && head[15] == SecretName(kind)[1];
  }

  lemma CaTextTells(name: string)
    ensures var s := ErrorText(CaSecretMissing(name));
            && |s| == 29 + |name| && s[0] == 'f' && s[10] == 'g' && s[14] == 'C' && s[|s| - |name|..] == name
  {
    assert ErrorText(CaSecretMissing(name)) == ("failed to get " + "CA cert" + " secret ") + name;
  }

  lemma TextTells(e: AuthError)
    ensures var s := ErrorText(e);
            match e
            case ConfigMissing(kind) =>
              |s| > 1 && s[0] == (if kind == BASIC || kind == BEARER then 'b' else 'm')
              && s[1] == (if kind == BASIC then 'a' else if kind == BEARER then 'e' else 't')
            case SecretMissing(kind, name) =>
              |s| > 15 && s[0] == 'f' && s[10] == 'g'
              && s[14] == (if kind == BASIC || kind == BEARER then 'b' else 'c')
              && s[15] == (if kind == BASIC then 'a' else if kind == BEARER then 'e' else 'l')
              && |s| == |SecretName(kind)| + |name| + 22 && s[|s| - |name|..] == name
            case CertificateInvalid => |s| > 15 && s[0] == 'f' && s[10] == 'p'
            case CaSecretMissing(name) =>
              |s| == 29 + |name| && s[0] == 'f' && s[10] == 'g' && s[14] == 'C' && s[|s| - |name|..] == name
  {
    match e
    case ConfigMissing(kind) => ConfigTextTells(kind); hide ErrorText;
    case SecretMissing(kind, name) => SecretTextTells(kind, name); hide ErrorText;
    case CaSecretMissing(name) => CaTextTells(name); hide ErrorText;
    case CertificateInvalid =>
  }

  /** A status tells which error it reports: the texts are different for different errors, they name the
      block that is missing, and they end with the name of the Secret that is. */
  lemma ErrorTextTells(a: AuthError, b: AuthError)
    requires Possible(a) && Possible(b)
    ensures ErrorText(a) == ErrorText(b) ==> a == b
    ensures a.ConfigMissing? ==> BlockName(a.kind) <= ErrorText(a)
    ensures a.SecretMissing? || a.CaSecretMissing? ==>
              |a.name| <= |ErrorText(a)| && ErrorText(a)[|ErrorText(a)| - |a.name|..] == a.name
  {
    TextTells(a);
    TextTells(b);
    if a.ConfigMissing? { ConfigTextTells(a.kind); }
    hide ErrorText;
  }

  // ----- one key -----

  lemma StoreKeeps(ks: KeyState, o: Object)
    requires KeyInv(ks) && Live(ks.slot).Some? && Coherent(o)
    ensures KeyInv(ks.(slot := Store(ks.slot, o)))
  {
    hide FindCondition, CountKind;
  }

  lemma UserKeeps(ks: KeyState)
    requires KeyInv(ks)
    ensures forall spec :: KeyInv(ks.(slot := UserStore(ks.slot, spec)))
    ensures KeyInv(ks.(slot := Append(ks.slot, None)))
  {
    forall spec ensures KeyInv(ks.(slot := UserStore(ks.slot, spec))) {
      if Live(ks.slot).Some? {
        var l := Live(ks.slot).value;
        assert Coherent(l);
        StoreKeeps(ks, l.(spec := spec, generation := if spec == l.spec then l.generation else l.generation + 1));
      } else {
        assert Coherent(Object(|ks.slot.hist|, 1, spec, NO_STATUS));
        hide Coherent;
      }
    }
    hide Coherent;
  }

  lemma WriteKeeps(ks: KeyState, status: Status, outcome: Outcome, retry: bool)
    requires KeyInv(ks) && HasObj(ks.pc) && Coherent(ks.pc.obj.(status := status))
    ensures KeyInv(Finish(Written(ks, ApiUpdateStatus(ks.slot, ks.pc.obj.(status := status)), outcome).0, retry))
  {
    var o := ks.pc.obj;
    if Live(ks.slot).Some? && Live(ks.slot).value.rv == o.rv {
      assert Live(ks.slot).value == o;
      StoreKeeps(ks, o.(status := status));
    }
    hide Coherent, Store;
  }

  lemma WriteStepKeeps(parse: KeyPairParser, ns: string, secrets: SecretStore, ks: KeyState, outcome: Outcome, now: nat)
    requires KeyInv(ks) && (ks.pc.Write? || ks.pc.FailWrite?)
    ensures KeyInv(Advance(parse, ns, secrets, ks, outcome, now))
  {
    var o := ks.pc.obj;
    assert Coherent(o);
    if ks.pc.Write? {
      CheckedIsCoherent(o, ks.pc.error, ks.pc.now);
      WriteKeeps(ks, CheckedStatus(o, ks.pc.error, ks.pc.now), outcome, true);
    } else {
      FailedIsCoherent(o, ks.pc.cause, ks.pc.now);
      var stored := ApiUpdateStatus(ks.slot, o.(status := FailedStatus(o, ks.pc.cause, ks.pc.now)));
      WriteKeeps(ks, FailedStatus(o, ks.pc.cause, ks.pc.now), outcome, !Written(ks, stored, outcome).1);
    }
    hide Coherent, CheckedStatus, FailedStatus, ApiUpdateStatus, KeyInv, Written, Finish;
  }

  lemma AdvanceKeeps(parse: KeyPairParser, ns: string, secrets: SecretStore, ks: KeyState, outcome: Outcome, now: nat)
    requires KeyInv(ks)
    ensures KeyInv(Advance(parse, ns, secrets, ks, outcome, now))
  {
    if ks.pc.Write? || ks.pc.FailWrite? {
      hide KeyInv, Advance;
      WriteStepKeeps(parse, ns, secrets, ks, outcome, now);
    } else {
      hide Coherent, ReadFirst, ReadCa;
    }
  }

  // ----- calls -----

  lemma AdvanceKeepsAuth(parse: KeyPairParser, ns: string, secrets: SecretStore, ks: KeyState, outcome: Outcome,
      now: nat)
    requires KeyInv(ks) && AuthOk(parse, ns, secrets, ks)
    ensures AuthOk(parse, ns, secrets, Advance(parse, ns, secrets, ks, outcome, now))
  {
    hide Coherent, ReadFirst, ReadCa, ApiUpdateStatus, CheckedStatus, FailedStatus;
  }

  lemma CallKeepsAuth(w: World, k: Key, outcome: Outcome)
    requires Inv(w) && Enabled(w, Call(k, outcome))
    ensures AuthInv(Apply(w, Call(k, outcome)), k)
  {
    assert KeyInv(w.keys[k]) && AuthInv(w, k);
    assert CachedSecrets(Apply(w, Call(k, outcome))) == CachedSecrets(w);
    hide Inv, KeyInv, Advance, Coherent, AuthOk, CachedSecrets;
    AdvanceKeepsAuth(w.parse, k.namespace, CachedSecrets(w), w.keys[k], outcome, w.clock);
  }

  /** Only a written report of a loading failure ends without asking to be called again. */
  lemma EndsQuietly(parse: KeyPairParser, ns: string, secrets: SecretStore, ks: KeyState, outcome: Outcome, now: nat)
    requires KeyInv(ks) && !ks.pc.Idle?
    ensures var n := Advance(parse, ns, secrets, ks, outcome, now);
            Quiet(n) && Live(n.slot).Some? ==> ks.pc.FailWrite?
  {
    hide Coherent, ReadFirst, ReadCa, ApiUpdateStatus, CheckedStatus, FailedStatus;
  }

  lemma CallKeepsQuiet(w: World, k: Key, outcome: Outcome)
    requires Inv(w) && Enabled(w, Call(k, outcome))
    ensures QuietInv(Apply(w, Call(k, outcome)), k)
  {
    var ks := w.keys[k];
    var w' := Apply(w, Call(k, outcome));
    assert KeyInv(ks) && AuthInv(w, k);
    assert CachedSecrets(w') == CachedSecrets(w);
    assert w'.keys[k] == Advance(w.parse, k.namespace, CachedSecrets(w), ks, outcome, w.clock);
    EndsQuietly(w.parse, k.namespace, CachedSecrets(w), ks, outcome, w.clock);
    hide Inv, KeyInv, Advance, CachedSecrets, Reports, Load, ReadFirst;
    if Quiet(w'.keys[k]) && Live(w'.keys[k].slot).Some? {
      ReportIsQuiet(w.parse, k.namespace, CachedSecrets(w), ks, outcome, w.clock);
    }
  }

  lemma ReportIsQuiet(parse: KeyPairParser, ns: string, secrets: SecretStore, ks: KeyState, outcome: Outcome, now: nat)
    requires KeyInv(ks) && ks.pc.FailWrite? && Quiet(Advance(parse, ns, secrets, ks, outcome, now))
    ensures Live(Advance(parse, ns, secrets, ks, outcome, now).slot) == Some(ks.pc.obj) &&
            Reports(ks.pc.obj, ks.pc.cause)
  {
    var o := ks.pc.obj;
    FailedIsCoherent(o, ks.pc.cause, ks.pc.now);
    hide Coherent, FailedStatus, Reports;
  }

  // ----- secrets -----

  /** A key that a Secret's event does not wake cannot tell the Secret's contents apart. */
  lemma UnwokenIsIndifferent(w: World, w': World, sk: Key, k: Key, spec: RegistrySpec)
    requires w'.parse == w.parse
    requires forall s :: s != sk ==> SameSecret(CachedSecrets(w), CachedSecrets(w'), s)
    requires !(k.namespace == sk.namespace && ReferencesSecret(spec, sk.name))
    ensures ReadFirst(w'.parse, k.namespace, spec, CachedSecrets(w')) ==
            ReadFirst(w.parse, k.namespace, spec, CachedSecrets(w))
    ensures Load(w'.parse, k.namespace, spec, CachedSecrets(w')) == Load(w.parse, k.namespace, spec, CachedSecrets(w))
  {
    hide ReadFirst, Load, CachedSecrets, ReferencesSecret;
    assert AgreeOnReferenced(k.namespace, spec, CachedSecrets(w), CachedSecrets(w'));
    NonInterference(w.parse, k.namespace, spec, CachedSecrets(w), CachedSecrets(w'));
  }

  /** A Secret's event marks exactly the registries of its namespace that reference it. */
  lemma SecretWakesExactly(w: World, sk: Key, to: nat, k: Key)
    requires Enabled(w, DeliverSecret(sk, to)) && k in w.keys
    ensures var w' := Apply(w, DeliverSecret(sk, to));
            && k in w'.keys
            && w'.keys[k] == w.keys[k].(dirty := w'.keys[k].dirty)
            && (w'.keys[k].dirty <==>
                  || w.keys[k].dirty
                  || (Cached(w.keys[k].slot).Some? && k.namespace == sk.namespace &&
                      ReferencesSecret(Cached(w.keys[k].slot).value.spec, sk.name)))
  {
    hide ReferencesSecret;
  }

  lemma DeliverSecretKeeps(w: World, sk: Key, to: nat)
    requires Inv(w) && Enabled(w, DeliverSecret(sk, to))
    ensures Inv(Apply(w, DeliverSecret(sk, to)))
  {
    var w' := Apply(w, DeliverSecret(sk, to));
    assert forall s :: s != sk ==> SameSecret(CachedSecrets(w), CachedSecrets(w'), s);
    forall k | k in w'.keys ensures KeyInv(w'.keys[k]) && AuthInv(w', k) && QuietInv(w', k) {
      assert KeyInv(w.keys[k]) && AuthInv(w, k) && QuietInv(w, k);
      var ks := w.keys[k];
      if !WokenBy(sk, k, ks) && Cached(ks.slot).Some? {
        UnwokenIsIndifferent(w, w', sk, k, Cached(ks.slot).value.spec);
      }
      hide Inv, Coherent, ReadFirst, Load, CachedSecrets, ReferencesSecret, Reports;
    }
    hide KeyInv, AuthInv, QuietInv;
  }

  // ----- every action -----

  /** What an action that leaves the Secrets in the cache alone has to keep. */
  lemma KeyFrame(w: World, w': World, k: Key)
    requires Inv(w) && k in w.keys && k in w'.keys && w'.parse == w.parse && CachedSecrets(w') == CachedSecrets(w)
    requires w'.keys[k] == w.keys[k] ||
             (KeyInv(w'.keys[k]) &&
               (w'.keys[k].dirty || !Delivered(w'.keys[k].slot) || !w'.keys[k].pc.Idle? ||
                 Live(w'.keys[k].slot).None?) &&
              (w'.keys[k].dirty || w'.keys[k].pc.Start? || w'.keys[k].pc.Idle? ||
                (w'.keys[k].pc == w.keys[k].pc && w'.keys[k].dirty == w.keys[k].dirty)))
    ensures KeyInv(w'.keys[k]) && AuthInv(w', k) && QuietInv(w', k)
  {
    assert KeyInv(w.keys[k]) && AuthInv(w, k) && QuietInv(w, k);
    hide Inv, KeyInv, ReadFirst, Load, CachedSecrets, Reports;
  }

  lemma UserActionKeeps(w: World, a: Action)
    requires Inv(w) && Enabled(w, a) && (a.UserWrite? || a.UserDelete?)
    ensures Inv(Apply(w, a))
  {
    var w' := Apply(w, a);
    assert CachedSecrets(w') == CachedSecrets(w);
    assert KeyInv(w.keys[a.key]);
    UserKeeps(w.keys[a.key]);
    hide KeyInv, CachedSecrets, AuthInv, QuietInv;
    forall k | k in w'.keys ensures KeyInv(w'.keys[k]) && AuthInv(w', k) && QuietInv(w', k) {
      hide Inv;
      KeyFrame(w, w', k);
    }
  }

  lemma QueueActionKeeps(w: World, a: Action)
    requires Inv(w) && Enabled(w, a) && (a.Deliver? || a.Fire? || a.Dequeue? || a.Restart? || a.Tick? || a.EditSecret?)
    ensures Inv(Apply(w, a))
  {
    var w' := Apply(w, a);
    assert CachedSecrets(w') == CachedSecrets(w);
    forall k | k in w'.keys ensures KeyInv(w'.keys[k]) && AuthInv(w', k) && QuietInv(w', k) {
      assert KeyInv(w.keys[k]);
      hide Inv, CachedSecrets, Coherent, AuthInv, QuietInv;
      KeyFrame(w, w', k);
    }
    hide KeyInv, CachedSecrets, AuthInv, QuietInv;
  }

  lemma CallKeeps(w: World, k: Key, outcome: Outcome)
    requires Inv(w) && Enabled(w, Call(k, outcome))
    ensures Inv(Apply(w, Call(k, outcome)))
  {
    var w' := Apply(w, Call(k, outcome));
    assert CachedSecrets(w') == CachedSecrets(w);
    assert KeyInv(w.keys[k]);
    CallKeepsAuth(w, k, outcome);
    CallKeepsQuiet(w, k, outcome);
    hide KeyInv, CachedSecrets, AuthInv, QuietInv, Advance;
    AdvanceKeeps(w.parse, k.namespace, CachedSecrets(w), w.keys[k], outcome, w.clock);
    forall l | l in w'.keys ensures KeyInv(w'.keys[l]) && AuthInv(w', l) && QuietInv(w', l) {
      hide Inv;
      if l != k { KeyFrame(w, w', l); }
    }
  }

  lemma ApplyKeeps(w: World, a: Action)
    requires Inv(w) && Enabled(w, a)
    ensures Inv(Apply(w, a))
  {
    hide Inv;
    match a
    case UserWrite(_, _) => UserActionKeeps(w, a);
    case UserDelete(_) => UserActionKeeps(w, a);
    case DeliverSecret(sk, to) => DeliverSecretKeeps(w, sk, to);
    case Call(k, outcome) => CallKeeps(w, k, outcome);
    case _ => QueueActionKeeps(w, a);
  }

  /** Runs compose: a further step extends a run. */
  lemma {:induction false} RunAppend(start: World, run: seq<Action>, a: Action)
    requires ValidRun(start, run) && Enabled(Run(start, run), a)
    ensures ValidRun(start, run + [a]) && Run(start, run + [a]) == Apply(Run(start, run), a)
    decreases |run|
  {
    hide Enabled, Apply;
    if run == [] {
      assert (run + [a])[1..] == [];
      assert Run(Apply(start, a), []) == Apply(start, a);
    } else {
      assert (run + [a])[1..] == run[1..] + [a];
      RunAppend(Apply(start, run[0]), run[1..], a);
    }
  }

  lemma {:induction false} RunKeeps(w: World, run: seq<Action>)
    requires Inv(w) && ValidRun(w, run)
    ensures Inv(Run(w, run))
    decreases |run|
  {
    hide Inv;
    if run != [] {
      ApplyKeeps(w, run[0]);
      RunKeeps(Apply(w, run[0]), run[1..]);
    }
  }

  lemma ReachableInv(w: World)
    requires Reachable(w)
    ensures Inv(w)
  {
    var start, run :| Initial(start) && Reaches(start, run, w);
    assert Inv(start);
    hide Inv, Initial;
    RunKeeps(start, run);
  }

  // ----- theorems -----

  /** Status coherence of every version ever stored: "Connected" exactly when Ready is True,
      "Unreachable" exactly when Ready is False, never two Ready conditions. */
  lemma StatusCoherence(w: World, k: Key, i: nat)
    requires Reachable(w) && k in w.keys && i < |w.keys[k].slot.hist| && w.keys[k].slot.hist[i].Some?
    ensures var o := w.keys[k].slot.hist[i].value;
            Coherent(o) && (o.status.connectionStatus != "" ==> CountKind(o.status.conditions, READY) == 1)
  {
    ReachableInv(w);
    assert KeyInv(w.keys[k]);
    FindByCount(w.keys[k].slot.hist[i].value.status.conditions, READY);
  }

  /** No wakeup is lost: a SchemaRegistry with nothing pending, neither for itself nor among the
      Secrets it references, is one whose credentials cannot be loaded from the Secrets as they are
      now, and its status reports exactly what stands in the way, for its current generation. */
  lemma NoLostWakeup(w: World, k: Key)
    requires Reachable(w) && k in w.keys && Quiet(w.keys[k]) && Live(w.keys[k].slot).Some?
    requires forall name ::
               ReferencesSecret(Live(w.keys[k].slot).value.spec, name) && Key(k.namespace, name) in w.secrets ==>
                 Delivered(w.secrets[Key(k.namespace, name)])
    ensures var o := Live(w.keys[k].slot).value;
            var r := Load(w.parse, k.namespace, o.spec, LiveSecrets(w));
            && r.Err? && Reports(o, r.error)
            && !Loadable(w.parse, k.namespace, o.spec, LiveSecrets(w))
            && forall e :: Hindrance(w.parse, k.namespace, o.spec, LiveSecrets(w), e) <==> e == r.error
  {
    LoadMeaning(w.parse, k.namespace, Live(w.keys[k].slot).value.spec, LiveSecrets(w));
    hide Loadable, Credentials, Hindrance;
    ReachableInv(w);
    assert QuietInv(w, k);
    var o := Live(w.keys[k].slot).value;
    assert AgreeOnReferenced(k.namespace, o.spec, CachedSecrets(w), LiveSecrets(w)) by {
      hide Inv, QuietInv, Load, Reports, ReferencesSecret;
    }
    NonInterference(w.parse, k.namespace, o.spec, CachedSecrets(w), LiveSecrets(w));
    hide Inv, Load, Reports, CachedSecrets, LiveSecrets;
  }
}
