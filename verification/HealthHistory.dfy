/** What a SchemaRegistry's status goes back to: each stored version is a creation, an edit or a report, and
    a report of a check was written after a check that ended the way it says. */
module HealthHistory {
  import opened Kube
  import opened Api
  import opened Auth
  import opened Health
  import opened HealthProofs

  // ----- from version to version -----

  /** An edit keeps the status, and the generation counts the changes of the specification. */
  ghost predicate Edit(a: Object, b: Object) {
    && b.status == a.status
    && b.generation == if b.spec == a.spec then a.generation else a.generation + 1
  }

  /** The result of a check is reported in full. */
  ghost predicate CheckReport(a: Object, b: Object, passed: bool) {
    && b == a.(rv := b.rv, status := b.status)
    && OthersUntouched(a.status.conditions, b.status.conditions, READY)
    && b.status.connectionStatus == (if passed then "Connected" else "Unreachable")
    && b.status.lastChecked.Some? && b.status.observedGeneration == a.generation
    && Ready(b).Some?
    && Ready(b).value.status == (if passed then IsTrue else IsFalse)
    && Ready(b).value.reason == (if passed then "Connected" else "ConnectionFailed")
    && Ready(b).value.observedGeneration == a.generation
  }

  /** A failure to load credentials changes the connection status and the Ready condition, and nothing else:
      time and generation of the last check stay. */
  ghost predicate LoadReport(a: Object, b: Object) {
    && b == a.(rv := b.rv, status := a.status.(connectionStatus := "Unreachable", conditions := b.status.conditions))
    && OthersUntouched(a.status.conditions, b.status.conditions, READY)
    && Ready(b).Some? && Ready(b).value.status == IsFalse && Ready(b).value.reason == "AuthLoadFailed"
    && Ready(b).value.observedGeneration == a.generation
  }

  ghost predicate Step(a: Option<Object>, b: Option<Object>) {
    match b
    case None => true
    case Some(n) =>
      if a.None? then n.generation == 1 && n.status == NO_STATUS
      else Edit(a.value, n) || CheckReport(a.value, n, true) || CheckReport(a.value, n, false) || LoadReport(a.value, n)
  }

  lemma CheckIsReport(o: Object, error: Option<string>, now: nat, rv: nat)
    ensures CheckReport(o, o.(rv := rv, status := CheckedStatus(o, error, now)), error.None?)
  {
    var c := if error.Some? then Condition(READY, IsFalse, "ConnectionFailed", Text(error.value), o.generation, now)
             else
               Condition(READY, IsTrue, "Connected", Text("Successfully connected to Schema Registry"), o.generation,
                 now);
    SetStatusConditionMeaning(o.status.conditions, c, now, "");
    SetStatusConditionKeepsOthers(o.status.conditions, c, now);
    hide FindCondition, CountKind, SetStatusCondition, OthersUntouched;
  }

  lemma LoadIsReport(o: Object, cause: AuthError, now: nat, rv: nat)
    ensures LoadReport(o, o.(rv := rv, status := FailedStatus(o, cause, now)))
  {
    var c := Condition(READY, IsFalse, "AuthLoadFailed", Text(ErrorText(cause)), o.generation, now);
    SetStatusConditionMeaning(o.status.conditions, c, now, "");
    SetStatusConditionKeepsOthers(o.status.conditions, c, now);
    hide FindCondition, CountKind, SetStatusCondition, OthersUntouched, ErrorText;
  }

  /** What one action can do to a key's history: nothing, or one more version, and of which kind. */
  ghost predicate Grown(h: seq<Option<Object>>, h': seq<Option<Object>>) {
    h' == h || (|h| > 0 && |h'| == |h| + 1 && h' == h + [h'[|h|]] && Step(h[|h| - 1], h'[|h|]))
  }

  lemma UserGrows(s: Slot<Object>, spec: RegistrySpec)
    ensures Grown(s.hist, UserStore(s, spec).hist)
  {
    var n := UserStore(s, spec);
    if n.hist != s.hist { assert n.hist == s.hist + [n.hist[|s.hist|]]; }
    hide CheckReport, LoadReport;
  }

  /** A status write stores a report of its kind. */
  lemma WriteGrows(ks: KeyState, status: Status, n: Slot<Object>)
    requires KeyInv(ks) && HasObj(ks.pc)
    requires Step(Some(ks.pc.obj), Some(ks.pc.obj.(rv := |ks.slot.hist|, status := status)))
    ensures ApiUpdateStatus(ks.slot, ks.pc.obj.(status := status)) == Some(n) ==>
              && Grown(ks.slot.hist, n.hist)
              && Live(n).Some? && Live(n).value.status == status
  {
    var o := ks.pc.obj;
    if Live(ks.slot).Some? && Live(ks.slot).value.rv == o.rv {
      assert Live(ks.slot) == Some(o);
      hide KeyInv, Step;
      assert n.hist != ks.slot.hist && ApiUpdateStatus(ks.slot, o.(status := status)) == Some(n) ==>
               n.hist == ks.slot.hist + [Some(o.(rv := |ks.slot.hist|, status := status))];
    }
    hide KeyInv, Step;
  }

  lemma ReportGrows(parse: KeyPairParser, ns: string, secrets: SecretStore, ks: KeyState, outcome: Outcome,
      now: nat)
    requires KeyInv(ks) && (ks.pc.Write? || ks.pc.FailWrite?)
    ensures var n := Advance(parse, ns, secrets, ks, outcome, now);
            var status := if ks.pc.Write? then CheckedStatus(ks.pc.obj, ks.pc.error, ks.pc.now)
                          else FailedStatus(ks.pc.obj, ks.pc.cause, ks.pc.now);
            && Grown(ks.slot.hist, n.slot.hist)
            && (n.slot.hist != ks.slot.hist ==> Live(n.slot).Some? && Live(n.slot).value.status == status)
  {
    var n := Advance(parse, ns, secrets, ks, outcome, now);
    var o, rv := ks.pc.obj, |ks.slot.hist|;
    var status := if ks.pc.Write? then CheckedStatus(o, ks.pc.error, ks.pc.now)
      else FailedStatus(o, ks.pc.cause, ks.pc.now);
    if ks.pc.Write? {
      CheckIsReport(o, ks.pc.error, ks.pc.now, rv);
    } else {
      LoadIsReport(o, ks.pc.cause, ks.pc.now, rv);
    }
    hide CheckReport, LoadReport, CheckedStatus, FailedStatus, KeyInv, Grown;
    assert Step(Some(o), Some(o.(rv := rv, status := status)));
    hide Step, Edit, ApiUpdateStatus;
    WriteGrows(ks, status, n.slot);
    SameGrows(ks.slot.hist);
  }

  lemma CallGrows(parse: KeyPairParser, ns: string, secrets: SecretStore, ks: KeyState, outcome: Outcome,
      now: nat)
    requires KeyInv(ks)
    ensures var n := Advance(parse, ns, secrets, ks, outcome, now);
            && Grown(ks.slot.hist, n.slot.hist)
            && (n.slot.hist != ks.slot.hist ==>
                  && (ks.pc.Write? || ks.pc.FailWrite?) && Live(n.slot).Some?
                  && (ks.pc.Write? ==> Live(n.slot).value.status == CheckedStatus(ks.pc.obj, ks.pc.error, ks.pc.now))
                  && (ks.pc.FailWrite? ==>
                       Live(n.slot).value.status == FailedStatus(ks.pc.obj, ks.pc.cause, ks.pc.now)))
  {
    if ks.pc.Write? || ks.pc.FailWrite? {
      hide KeyInv, Advance, Grown, CheckedStatus, FailedStatus;
      ReportGrows(parse, ns, secrets, ks, outcome, now);
    } else {
      SameGrows(ks.slot.hist);
      hide Grown, Step, KeyInv, ReadFirst, ReadCa;
    }
  }

  lemma SameGrows(h: seq<Option<Object>>)
    ensures Grown(h, h)
  {
  }

  // ----- every run -----

  /** A run up to any point is a run, and the next action leads on from there. */
  lemma {:induction false} PrefixRun(w: World, run: seq<Action>, n: nat)
    requires ValidRun(w, run) && n <= |run|
    ensures ValidRun(w, run[..n])
    ensures n < |run| ==>
              && Enabled(Run(w, run[..n]), run[n]) && ValidRun(w, run[..n + 1])
              && Run(w, run[..n + 1]) == Apply(Run(w, run[..n]), run[n])
    decreases n
  {
    hide Enabled, Apply;
    if n == 0 {
      if run != [] {
        assert run[..1][1..] == [];
        assert ValidRun(Apply(w, run[0]), []) && Run(Apply(w, run[0]), []) == Apply(w, run[0]);
      }
    } else {
      PrefixRun(Apply(w, run[0]), run[1..], n - 1);
      assert run[..n][1..] == run[1..][..n - 1];
      if n < |run| { assert run[..n + 1][1..] == run[1..][..n]; }
    }
  }

  /** This action is the health check of a reconcile of the key. */
  predicate IsCheck(w: World, a: Action, k: Key) {
    a.Call? && a.key == k && k in w.keys && w.keys[k].pc.Check?
  }

  /** How the latest check of the key ended. */
  ghost function LastCheck(start: World, run: seq<Action>, k: Key): Option<Outcome>
    requires ValidRun(start, run)
    decreases |run|
  {
    if run == [] then None
    else
      var n := |run| - 1;
      PrefixRun(start, run, n);
      if IsCheck(Run(start, run[..n]), run[n], k) then Some(run[n].outcome) else LastCheck(start, run[..n], k)
  }

  /** The reconcile's own result of its check. */
  ghost predicate CarriesResult(pc: Pc, last: Option<Outcome>) {
    pc.Fetch? || pc.Write? ==> last.Some? && (pc.error.None? <==> last.value.Done?)
  }

  lemma StepCarries(w: World, a: Action, k: Key, last: Option<Outcome>)
    requires Enabled(w, a) && k in w.keys && CarriesResult(w.keys[k].pc, last)
    ensures k in Apply(w, a).keys
    ensures CarriesResult(Apply(w, a).keys[k].pc, if IsCheck(w, a, k) then Some(a.outcome) else last)
  {
    hide ReadFirst, ReadCa, ApiUpdateStatus, CheckedStatus, FailedStatus, CachedSecrets, WokenBy, UserStore;
  }

  lemma KeysAreFixed(w: World, a: Action)
    requires Enabled(w, a)
    ensures Apply(w, a).keys.Keys == w.keys.Keys
  {
    hide Advance, CachedSecrets, WokenBy, UserStore;
  }

  /** In every run, a reconcile that is about to report a check reports success if and only if its own
      check, the latest one of the key, was answered. */
  lemma {:induction false} ChecksAreCarried(start: World, run: seq<Action>, k: Key)
    requires Initial(start) && ValidRun(start, run) && k in start.keys
    ensures k in Run(start, run).keys
    ensures CarriesResult(Run(start, run).keys[k].pc, LastCheck(start, run, k))
    decreases |run|
  {
    if run != [] {
      var n := |run| - 1;
      assert run[..n + 1] == run;
      PrefixRun(start, run, n);
      hide Initial, Enabled, Apply;
      ChecksAreCarried(start, run[..n], k);
      hide CarriesResult;
      StepCarries(Run(start, run[..n]), run[n], k, LastCheck(start, run[..n], k));
    }
  }

  /** What a status claims about the check it reports. */
  function Claim(s: Status): Option<bool> {
    var ready := FindCondition(s.conditions, READY);
    if s.connectionStatus == "Connected" then Some(true)
    else if ready.Some? && ready.value.reason == "ConnectionFailed" then Some(false)
    else None
  }

  /** The status was written by the `n`-th action, after a check of the key that did, or did not, pass. */
  ghost predicate WrittenAfter(start: World, run: seq<Action>, k: Key, n: nat, s: Status, passed: bool)
    requires ValidRun(start, run)
  {
    && n < |run|
    && (PrefixRun(start, run, n);
        var w := Run(start, run[..n]);
        var last := LastCheck(start, run[..n], k);
        && run[n].Call? && run[n].key == k && k in w.keys && w.keys[k].pc.Write?
        && last.Some? && (last.value.Done? <==> passed)
        && var w' := Apply(w, run[n]);
        k in w'.keys && Live(w'.keys[k].slot).Some? && Live(w'.keys[k].slot).value.status == s)
  }

  ghost predicate Substantiated(start: World, run: seq<Action>, k: Key, s: Status)
    requires ValidRun(start, run)
  {
    Claim(s).Some? ==> WrittenAfterCheck(start, run, k, s, Claim(s).value)
  }

  ghost predicate WrittenAfterCheck(start: World, run: seq<Action>, k: Key, s: Status, passed: bool)
    requires ValidRun(start, run)
  {
    exists n :: WrittenAfter(start, run, k, n, s, passed)
  }

  lemma WrittenStays(start: World, run: seq<Action>, m: nat, k: Key, n: nat, s: Status, passed: bool)
    requires ValidRun(start, run) && m <= |run| && ValidRun(start, run[..m])
    ensures WrittenAfter(start, run[..m], k, n, s, passed) ==> WrittenAfter(start, run, k, n, s, passed)
  {
    if n < m {
      assert run[..m][..n] == run[..n] && run[..m][n] == run[n];
      PrefixRun(start, run, n);
    }
    hide ValidRun, Run, Apply, Enabled, LastCheck;
  }

  lemma StaysSubstantiated(start: World, run: seq<Action>, k: Key, s: Status)
    requires ValidRun(start, run) && run != []
    ensures ValidRun(start, run[..|run| - 1])
    ensures Substantiated(start, run[..|run| - 1], k, s) ==> Substantiated(start, run, k, s)
  {
    var m := |run| - 1;
    PrefixRun(start, run, m);
    hide WrittenAfter, ValidRun, Claim;
    if Claim(s).Some? && Substantiated(start, run[..m], k, s) {
      var n :| WrittenAfter(start, run[..m], k, n, s, Claim(s).value);
      WrittenStays(start, run, m, k, n, s, Claim(s).value);
    }
  }

  lemma ClaimOfCheck(o: Object, error: Option<string>, now: nat)
    ensures Claim(CheckedStatus(o, error, now)) == Some(error.None?)
  {
    CheckIsReport(o, error, now, 0);
    hide CheckedStatus, OthersUntouched;
  }

  lemma ClaimOfFailure(o: Object, cause: AuthError, now: nat)
    ensures Claim(FailedStatus(o, cause, now)).None?
  {
    LoadIsReport(o, cause, now, 0);
    hide FailedStatus, OthersUntouched;
  }

  lemma CallClaims(w: World, k: Key, outcome: Outcome)
    requires Inv(w) && Enabled(w, Call(k, outcome))
    ensures var w' := Apply(w, Call(k, outcome));
            && k in w'.keys && Grown(w.keys[k].slot.hist, w'.keys[k].slot.hist)
            && (w'.keys[k].slot.hist != w.keys[k].slot.hist ==>
                  && Live(w'.keys[k].slot).Some?
                  && var claim := Claim(Live(w'.keys[k].slot).value.status);
                  (claim.Some? ==> w.keys[k].pc.Write? && claim.value == w.keys[k].pc.error.None?))
  {
    var ks := w.keys[k];
    assert KeyInv(ks);
    CallGrows(w.parse, k.namespace, CachedSecrets(w), ks, outcome, w.clock);
    if ks.pc.Write? { ClaimOfCheck(ks.pc.obj, ks.pc.error, ks.pc.now); }
    if ks.pc.FailWrite? { ClaimOfFailure(ks.pc.obj, ks.pc.cause, ks.pc.now); }
    hide Inv, KeyInv, Advance, CachedSecrets, Grown, Claim, CheckedStatus, FailedStatus;
  }

  lemma OtherGrows(w: World, a: Action, k: Key)
    requires Enabled(w, a) && !(a.Call? && a.key == k) && k in w.keys
    ensures k in Apply(w, a).keys
    ensures var h, h' := w.keys[k].slot.hist, Apply(w, a).keys[k].slot.hist;
            && Grown(h, h')
            && (h' != h && h'[|h'| - 1].Some? ==>
                  var s := h'[|h'| - 1].value.status;
                  s == NO_STATUS || (h[|h| - 1].Some? && s == h[|h| - 1].value.status))
  {
    var h := w.keys[k].slot.hist;
    SameGrows(h);
    if a.UserWrite? { UserGrows(w.keys[k].slot, a.spec); }
    if a.UserDelete? { assert Grown(h, h + [None]); }
    hide Grown, Advance, CachedSecrets, WokenBy;
  }

  lemma StepGrows(w: World, a: Action, k: Key)
    requires Inv(w) && Enabled(w, a) && k in w.keys
    ensures k in Apply(w, a).keys && Grown(w.keys[k].slot.hist, Apply(w, a).keys[k].slot.hist)
  {
    hide Inv, Enabled, Apply, Grown;
    if a.Call? && a.key == k { CallClaims(w, k, a.outcome); } else { OtherGrows(w, a, k); }
  }

  lemma PrefixReachable(start: World, run: seq<Action>)
    requires Initial(start) && ValidRun(start, run)
    ensures Inv(Run(start, run))
  {
    assert Reaches(start, run, Run(start, run));
    hide Initial, Inv;
    ReachableInv(Run(start, run));
  }

  /** The first version is none, and every later one is explained by the one before it: a creation with an empty
      status, an edit that leaves the status alone, a check reported in full, or a failure to load
      credentials, which keeps time and generation of the last check. */
  lemma {:induction false} EveryVersionIsExplained(start: World, run: seq<Action>, k: Key, i: nat)
    requires Initial(start) && ValidRun(start, run) && k in Run(start, run).keys && k in start.keys
    requires 0 < i < |Run(start, run).keys[k].slot.hist|
    ensures Step(Run(start, run).keys[k].slot.hist[i - 1], Run(start, run).keys[k].slot.hist[i])
    decreases |run|
  {
    if run != [] {
      var m := |run| - 1;
      assert run[..m + 1] == run;
      PrefixRun(start, run, m);
      PrefixReachable(start, run[..m]);
      ChecksAreCarried(start, run[..m], k);
      hide Initial, Inv, Enabled, Apply, Step;
      StepGrows(Run(start, run[..m]), run[m], k);
      if i < |Run(start, run[..m]).keys[k].slot.hist| { EveryVersionIsExplained(start, run[..m], k, i); }
    }
  }

  /** The last action of a run, and the world it starts from. */
  ghost function Earlier(start: World, run: seq<Action>): World
    requires ValidRun(start, run) && run != []
  {
    PrefixRun(start, run, |run| - 1);
    Run(start, run[..|run| - 1])
  }

  lemma LastStep(start: World, run: seq<Action>, k: Key)
    requires Initial(start) && ValidRun(start, run) && run != [] && k in start.keys
    ensures ValidRun(start, run[..|run| - 1])
    ensures var w, a := Earlier(start, run), run[|run| - 1];
            && w == Run(start, run[..|run| - 1]) && Inv(w) && Enabled(w, a) && Run(start, run) == Apply(w, a)
            && k in w.keys && k in Run(start, run).keys
            && Grown(w.keys[k].slot.hist, Run(start, run).keys[k].slot.hist)
            && CarriesResult(w.keys[k].pc, LastCheck(start, run[..|run| - 1], k))
  {
    var m := |run| - 1;
    assert run[..m + 1] == run;
    PrefixRun(start, run, m);
    PrefixReachable(start, run[..m]);
    ChecksAreCarried(start, run[..m], k);
    hide Initial, Inv, Enabled, Apply, CarriesResult, Grown;
    StepGrows(Run(start, run[..m]), run[m], k);
  }

  /** A check that was reported was made: whatever version says "Connected" was written after a check of
      this registry that was answered, and whatever version says "ConnectionFailed" after one that was not. */
  lemma {:induction false} ReportsAreSubstantiated(start: World, run: seq<Action>, k: Key, i: nat)
    requires Initial(start) && ValidRun(start, run) && k in start.keys && k in Run(start, run).keys
    requires i < |Run(start, run).keys[k].slot.hist| && Run(start, run).keys[k].slot.hist[i].Some?
    ensures Substantiated(start, run, k, Run(start, run).keys[k].slot.hist[i].value.status)
    decreases |run|
  {
    if run != [] {
      LastStep(start, run, k);
      var h := Earlier(start, run).keys[k].slot.hist;
      var s := Run(start, run).keys[k].slot.hist[i].value.status;
      hide Initial, Inv, Enabled, Apply, CarriesResult, Earlier, ValidRun, Run, Claim, WrittenAfterCheck, Step;
      StaysSubstantiated(start, run, k, s);
      if i < |h| {
        ReportsAreSubstantiated(start, run[..|run| - 1], k, i);
      } else {
        NewReportIsSubstantiated(start, run, k);
        if h[i - 1].Some? { ReportsAreSubstantiated(start, run[..|run| - 1], k, i - 1); }
      }
    }
  }

  /** The newest version carries the claim of the write that stored it, or of the version before. */
  lemma NewReportIsSubstantiated(start: World, run: seq<Action>, k: Key)
    requires Initial(start) && ValidRun(start, run) && run != [] && k in start.keys
    requires k in Earlier(start, run).keys && k in Run(start, run).keys && Live(Run(start, run).keys[k].slot).Some?
    requires Earlier(start, run).keys[k].slot.hist != Run(start, run).keys[k].slot.hist
    ensures var before := Live(Earlier(start, run).keys[k].slot);
            var s := Live(Run(start, run).keys[k].slot).value.status;
            !Substantiated(start, run, k, s) ==> before.Some? && s == before.value.status
  {
    var a := run[|run| - 1];
    if a.Call? && a.key == k {
      hide Initial, Earlier, ValidRun, Run, Claim, WrittenAfterCheck;
      OwnReportIsSubstantiated(start, run, k);
    } else {
      LastStep(start, run, k);
      EmptyClaimsNothing(start, run, k);
      hide Initial, Inv, Apply, Enabled, Earlier, CarriesResult, ValidRun, Run, Grown, Claim, WrittenAfterCheck;
      OtherGrows(Earlier(start, run), a, k);
    }
  }

  lemma EmptyClaimsNothing(start: World, run: seq<Action>, k: Key)
    requires ValidRun(start, run)
    ensures Substantiated(start, run, k, NO_STATUS)
  {
  }

  lemma OwnReportIsSubstantiated(start: World, run: seq<Action>, k: Key)
    requires Initial(start) && ValidRun(start, run) && run != [] && k in start.keys
    requires run[|run| - 1].Call? && run[|run| - 1].key == k
    requires k in Earlier(start, run).keys && k in Run(start, run).keys && Live(Run(start, run).keys[k].slot).Some?
    requires Earlier(start, run).keys[k].slot.hist != Run(start, run).keys[k].slot.hist
    ensures Substantiated(start, run, k, Live(Run(start, run).keys[k].slot).value.status)
  {
    LastStep(start, run, k);
    var s := Live(Run(start, run).keys[k].slot).value.status;
    CallClaims(Earlier(start, run), k, run[|run| - 1].outcome);
    hide Initial, Inv, Enabled, Apply, Grown, Claim, LastCheck, Earlier;
    if Claim(s).Some? {
      assert WrittenAfter(start, run, k, |run| - 1, s, Claim(s).value);
    }
  }
}
