/** The external schema registry, reduced to what the operator's HTTP client can observe, and
    that client. A registry hands out one id per content, keeps content once per subject, and
    never reuses a version number of a subject. */
module Registry {
  import opened Kube
  import opened Api

  datatype Entry = Entry(version: nat, id: nat, content: Request)

  /** `ids` and `counters` survive the deletion of a subject. */
  datatype Registry = Registry(subjects: map<string, seq<Entry>>, counters: map<string, nat>,
                               ids: map<Request, nat>, levels: map<string, string>)

  const EMPTY := Registry(map[], map[], map[], map[])

  function Entries(r: Registry, subject: string): seq<Entry> {
    if subject in r.subjects then r.subjects[subject] else []
  }

  function Counter(r: Registry, subject: string): nat {
    if subject in r.counters then r.counters[subject] else 0
  }

  /** The place of `content` in a subject's list, or its length. */
  function IndexOf(es: seq<Entry>, content: Request): (i: nat)
    ensures i <= |es|
    ensures i < |es| ==> es[i].content == content
    ensures forall j :: 0 <= j < i ==> es[j].content != content
  {
    if es == [] || es[0].content == content then 0 else 1 + IndexOf(es[1..], content)
  }

  predicate Holds(r: Registry, subject: string, content: Request) {
    IndexOf(Entries(r, subject), content) < |Entries(r, subject)|
  }

  function IdFor(r: Registry, content: Request): nat {
    if content in r.ids then r.ids[content] else |r.ids| + 1
  }

  /** POST /subjects/{subject}/versions. */
  function Register(r: Registry, subject: string, content: Request): Registry {
    if Holds(r, subject, content) then r
    else
      var v := Counter(r, subject) + 1;
      var id := IdFor(r, content);
      r.(subjects := r.subjects[subject := Entries(r, subject) + [Entry(v, id, content)]],
         counters := r.counters[subject := v],
         ids := r.ids[content := id])
  }

  /** GET /subjects/{subject}/versions/latest; `None` is 404. */
  function LatestVersion(r: Registry, subject: string): Option<nat> {
    var es := Entries(r, subject);
    if es == [] then None else Some(es[|es| - 1].version)
  }

  /** DELETE /subjects/{subject}. */
  function Delete(r: Registry, subject: string): Registry {
    r.(subjects := r.subjects - {subject})
  }

  /** PUT /config/{subject}. */
  function SetLevel(r: Registry, subject: string, level: string): Registry {
    r.(levels := r.levels[subject := level])
  }

  /** What a registry keeps true of itself. */
  ghost predicate RegistryOk(r: Registry) {
    && (forall s :: s in r.subjects ==> SubjectOk(r, s))
    && IdsOk(r.ids)
  }

  ghost predicate SubjectOk(r: Registry, s: string)
    requires s in r.subjects
  {
    var es := r.subjects[s];
    && es != []
    && (forall i :: 0 <= i < |es| ==> 1 <= es[i].version <= Counter(r, s))
    && (forall i :: 0 <= i < |es| ==> es[i].content in r.ids && r.ids[es[i].content] == es[i].id)
    && (forall i, j :: 0 <= i < j < |es| ==> es[i].version < es[j].version && es[i].content != es[j].content)
  }

  /** The answer of a registration that took effect. */
  function IdOf(r: Registry, subject: string, content: Request): nat {
    IdFor(Register(r, subject, content), content)
  }

  ghost predicate IdsOk(ids: map<Request, nat>) {
    && (forall c, d :: c in ids && d in ids && ids[c] == ids[d] ==> c == d)
    && (forall c :: c in ids ==> 1 <= ids[c] <= |ids|)
  }

  lemma NewIdIsFresh(ids: map<Request, nat>, content: Request)
    requires IdsOk(ids) && content !in ids
    ensures IdsOk(ids[content := |ids| + 1])
  {
    assert |ids[content := |ids| + 1]| == |ids| + 1;
  }

  lemma RegisterKeepsOk(r: Registry, subject: string, content: Request)
    requires RegistryOk(r)
    ensures RegistryOk(Register(r, subject, content))
    ensures Holds(Register(r, subject, content), subject, content)
  {
    var r' := Register(r, subject, content);
    if !Holds(r, subject, content) {
      if content in r.ids {
        assert r'.ids == r.ids;
      } else {
        NewIdIsFresh(r.ids, content);
      }
      RegisterKeepsSubject(r, subject, content);
      forall s | s in r'.subjects ensures SubjectOk(r', s) {
        if s != subject { RegisterKeepsOthers(r, subject, content, s); }
      }
    }
  }

  lemma RegisterKeepsSubject(r: Registry, subject: string, content: Request)
    requires RegistryOk(r) && !Holds(r, subject, content)
    ensures SubjectOk(Register(r, subject, content), subject)
    ensures Holds(Register(r, subject, content), subject, content)
  {
    var es := Entries(r, subject);
    var r' := Register(r, subject, content);
    var es' := r'.subjects[subject];
    assert es' == es + [Entry(Counter(r, subject) + 1, IdFor(r, content), content)];
    assert subject in r.subjects ==> SubjectOk(r, subject);
    assert forall i :: 0 <= i < |es| ==> es'[i] == es[i] && es'[i].content != content;
    assert es'[|es|].content == content;
  }

  lemma RegisterKeepsOthers(r: Registry, subject: string, content: Request, s: string)
    requires RegistryOk(r) && !Holds(r, subject, content) && s != subject && s in r.subjects
    ensures SubjectOk(Register(r, subject, content), s)
  {
    assert SubjectOk(r, s);
  }

  /** Registering again, after any number of lost answers, is a no-op that returns the same id. */
  lemma RegisterIsIdempotent(r: Registry, subject: string, content: Request)
    requires RegistryOk(r)
    ensures var r' := Register(r, subject, content);
            Register(r', subject, content) == r' && IdOf(r', subject, content) == IdOf(r, subject, content)
  {
    RegisterKeepsOk(r, subject, content);
  }

  // ----- runs of a registry under concurrent writers -----

  /** `Attempt` is one POST of the operator, with or without an answer; the others are other writers. */
  datatype Op =
    | Attempt(subject: string, content: Request, outcome: Outcome)
    | ForeignRegister(subject: string, content: Request)
    | ForeignDelete(subject: string)
    | ForeignLevel(subject: string, level: string)

  function Perform(r: Registry, op: Op): Registry {
    match op
    case Attempt(s, c, o) => if o.Refused? then r else Register(r, s, c)
    case ForeignRegister(s, c) => Register(r, s, c)
    case ForeignDelete(s) => Delete(r, s)
    case ForeignLevel(s, l) => SetLevel(r, s, l)
  }

  function PerformAll(r: Registry, ops: seq<Op>): Registry
    decreases |ops|
  {
    if ops == [] then r else PerformAll(Perform(r, ops[0]), ops[1..])
  }

  /** The ids answered to the operator's attempts with one subject and content, in order. */
  function Answers(r: Registry, ops: seq<Op>, subject: string, content: Request): seq<nat>
    decreases |ops|
  {
    if ops == [] then []
    else
      var rest := Answers(Perform(r, ops[0]), ops[1..], subject, content);
      if ops[0] == Attempt(subject, content, Done) then [IdOf(r, subject, content)] + rest else rest
  }

  ghost predicate NoDeletion(ops: seq<Op>, subject: string) {
    forall i :: 0 <= i < |ops| ==> ops[i] != ForeignDelete(subject)
  }

  ghost predicate SameAnswer(ids: seq<nat>, id: nat) {
    forall i :: 0 <= i < |ids| ==> ids[i] == id
  }

  function Occurrences(es: seq<Entry>, content: Request): nat {
    if es == [] then 0 else (if es[0].content == content then 1 else 0) + Occurrences(es[1..], content)
  }

  lemma {:induction false} OccurrencesOfDistinct(es: seq<Entry>, content: Request)
    requires forall i, j :: 0 <= i < j < |es| ==> es[i].content != es[j].content
    ensures Occurrences(es, content) == if IndexOf(es, content) < |es| then 1 else 0
  {
    if es != [] {
      OccurrencesOfDistinct(es[1..], content);
      if es[0].content == content {
        assert forall j :: 0 <= j < |es[1..]| ==> es[1..][j].content != content;
      }
    }
  }

  lemma PerformKeepsOk(r: Registry, op: Op)
    requires RegistryOk(r)
    ensures RegistryOk(Perform(r, op))
  {
    match op
    case Attempt(s, c, o) => RegisterKeepsOk(r, s, c);
    case ForeignRegister(s, c) => RegisterKeepsOk(r, s, c);
    case ForeignDelete(s) =>
      forall t | t in Delete(r, s).subjects ensures SubjectOk(Delete(r, s), t) { assert SubjectOk(r, t); }
    case ForeignLevel(s, l) =>
      forall t | t in r.subjects ensures SubjectOk(SetLevel(r, s, l), t) { assert SubjectOk(r, t); }
  }

  lemma RegisterIsMonotone(r: Registry, s: string, content: Request, subject: string)
    requires RegistryOk(r)
    ensures forall c :: c in r.ids ==> c in Register(r, s, content).ids && Register(r, s, content).ids[c] == r.ids[c]
    ensures Entries(r, subject) <= Entries(Register(r, s, content), subject)
    ensures Counter(r, subject) <= Counter(Register(r, s, content), subject)
  {
    hide RegistryOk;
  }

  /** Ids are never reassigned, and without deletions entries only ever accumulate. */
  lemma PerformIsMonotone(r: Registry, op: Op, subject: string)
    requires RegistryOk(r)
    ensures forall c :: c in r.ids ==> c in Perform(r, op).ids && Perform(r, op).ids[c] == r.ids[c]
    ensures op != ForeignDelete(subject) ==> Entries(r, subject) <= Entries(Perform(r, op), subject)
    ensures Counter(r, subject) <= Counter(Perform(r, op), subject)
  {
    if op.Attempt? || op.ForeignRegister? { RegisterIsMonotone(r, op.subject, op.content, subject); }
    hide RegistryOk, Register;
  }

  lemma {:induction false} RunIsMonotone(r: Registry, ops: seq<Op>, subject: string)
    requires RegistryOk(r)
    ensures RegistryOk(PerformAll(r, ops))
    ensures forall c :: c in r.ids ==> c in PerformAll(r, ops).ids && PerformAll(r, ops).ids[c] == r.ids[c]
    ensures NoDeletion(ops, subject) ==> Entries(r, subject) <= Entries(PerformAll(r, ops), subject)
    decreases |ops|
  {
    if ops != [] {
      PerformKeepsOk(r, ops[0]);
      PerformIsMonotone(r, ops[0], subject);
      RunIsMonotone(Perform(r, ops[0]), ops[1..], subject);
      assert NoDeletion(ops, subject) ==> NoDeletion(ops[1..], subject);
    }
  }

  lemma PrefixHolds(r: Registry, r': Registry, subject: string, content: Request)
    requires Holds(r, subject, content)
    requires Entries(r, subject) <= Entries(r', subject)
    ensures Holds(r', subject, content)
  {
    var i := IndexOf(Entries(r, subject), content);
    assert Entries(r', subject)[i].content == content;
  }

  /** A registration of the content that takes effect, the operator's own or another writer's. */
  ghost predicate Takes(op: Op, subject: string, content: Request) {
    match op
    case Attempt(s, c, o) => s == subject && c == content && !o.Refused?
    case ForeignRegister(s, c) => s == subject && c == content
    case _ => false
  }

  /** Some registration took effect after the last deletion of the subject. */
  ghost predicate TakenSince(ops: seq<Op>, subject: string, content: Request) {
    exists i :: 0 <= i < |ops| && Takes(ops[i], subject, content) && NoDeletion(ops[i + 1..], subject)
  }

  lemma TakenSinceStep(ops: seq<Op>, subject: string, content: Request)
    requires ops != []
    ensures TakenSince(ops, subject, content) <==>
            TakenSince(ops[1..], subject, content) || (Takes(ops[0], subject, content) && NoDeletion(ops[1..], subject))
  {
    var rest := ops[1..];
    if i :| 0 <= i < |ops| && Takes(ops[i], subject, content) && NoDeletion(ops[i + 1..], subject) {
      if i > 0 { assert rest[i - 1] == ops[i] && rest[i - 1 + 1..] == ops[i + 1..]; }
    }
    if i :| 0 <= i < |rest| && Takes(rest[i], subject, content) && NoDeletion(rest[i + 1..], subject) {
      assert ops[i + 1] == rest[i] && ops[i + 1 + 1..] == rest[i + 1..];
    }
    hide Takes;
  }

  lemma HoldsStep(r: Registry, op: Op, subject: string, content: Request)
    requires RegistryOk(r)
    ensures Holds(Perform(r, op), subject, content) <==>
            Takes(op, subject, content) || (Holds(r, subject, content) && op != ForeignDelete(subject))
  {
    if op.Attempt? || op.ForeignRegister? {
      RegisterKeepsOk(r, op.subject, op.content);
      HoldsAfterRegister(r, op.subject, op.content, subject, content);
      hide RegistryOk, Register, Holds;
    }
  }

  lemma HoldsAfterRegister(r: Registry, s: string, c: Request, subject: string, content: Request)
    ensures Holds(Register(r, s, c), subject, content) <==> Holds(r, subject, content) || (s == subject && c == content)
  {
    if !Holds(r, s, c) && s == subject {
      var es, es' := Entries(r, s), Entries(Register(r, s, c), s);
      assert es' == es + [es'[|es|]] && es'[|es|].content == c;
      if Holds(r, s, content) {
        assert es'[IndexOf(es, content)].content == content;
      }
    }
  }

  /** When a subject holds some content after a run of writers. */
  lemma {:induction false} HeldExactly(r: Registry, ops: seq<Op>, subject: string, content: Request)
    requires RegistryOk(r)
    ensures Holds(PerformAll(r, ops), subject, content) <==>
            TakenSince(ops, subject, content) || (Holds(r, subject, content) && NoDeletion(ops, subject))
    decreases |ops|
  {
    if ops != [] {
      PerformKeepsOk(r, ops[0]);
      HoldsStep(r, ops[0], subject, content);
      TakenSinceStep(ops, subject, content);
      hide RegistryOk, Perform, Holds, TakenSince, Takes;
      HeldExactly(Perform(r, ops[0]), ops[1..], subject, content);
      assert NoDeletion(ops, subject) <==> ops[0] != ForeignDelete(subject) && NoDeletion(ops[1..], subject) by {
        if ops[0] != ForeignDelete(subject) && NoDeletion(ops[1..], subject) {
          forall i | 0 <= i < |ops| ensures ops[i] != ForeignDelete(subject) {
            if i > 0 { assert ops[1..][i - 1] == ops[i]; }
          }
        }
      }
    }
  }

  /** Exactly once in effect: however many attempts were made, whichever answers were lost and
      whatever other writers did in between, deletions included, every answer is the same id, the one
      the registry files the content under. And the subject holds the content exactly once if some
      registration of it took effect after the last deletion of the subject, or it was there from
      the start and nothing was deleted; in every other case it does not hold it at all. */
  lemma ExactlyOnce(r: Registry, ops: seq<Op>, subject: string, content: Request)
    requires RegistryOk(r)
    ensures var r' := PerformAll(r, ops);
            && SameAnswer(Answers(r, ops, subject, content), IdFor(r', content))
            && Occurrences(Entries(r', subject), content) ==
                 if TakenSince(ops, subject, content) ||
                   (Holds(r, subject, content) && NoDeletion(ops, subject)) then 1 else 0
  {
    var r' := PerformAll(r, ops);
    AnswersAgree(r, ops, subject, content);
    RunIsMonotone(r, ops, subject);
    HeldExactly(r, ops, subject, content);
    assert subject in r'.subjects ==> SubjectOk(r', subject);
    OccurrencesOfDistinct(Entries(r', subject), content);
    hide TakenSince, SameAnswer;
  }

  /** An answered registration can be undone: with a deletion after it the id is known and the content gone. */
  lemma DeletionUndoesRegistration(subject: string, content: Request)
    ensures var ops := [Attempt(subject, content, Done), ForeignDelete(subject)];
            Answers(EMPTY, ops, subject, content) == [1] &&
              Occurrences(Entries(PerformAll(EMPTY, ops), subject), content) == 0
  {
    var ops := [Attempt(subject, content, Done), ForeignDelete(subject)];
    var r1 := Register(EMPTY, subject, content);
    assert ops[1..] == [ForeignDelete(subject)] && ops[1..][1..] == [];
    assert Perform(EMPTY, ops[0]) == r1;
    assert PerformAll(r1, [ForeignDelete(subject)]) == Delete(r1, subject) by {
      assert PerformAll(Delete(r1, subject), []) == Delete(r1, subject);
    }
    assert PerformAll(EMPTY, ops) == PerformAll(r1, ops[1..]);
    assert Answers(r1, ops[1..], subject, content) == [];
  }

  lemma {:induction false} AnswersAgree(r: Registry, ops: seq<Op>, subject: string, content: Request)
    requires RegistryOk(r)
    ensures SameAnswer(Answers(r, ops, subject, content), IdFor(PerformAll(r, ops), content))
    decreases |ops|
  {
    if ops != [] {
      var r1 := Perform(r, ops[0]);
      PerformKeepsOk(r, ops[0]);
      AnswersAgree(r1, ops[1..], subject, content);
      if ops[0] == Attempt(subject, content, Done) {
        RegisterKeepsOk(r, subject, content);
        HeldIsFiled(r1, subject, content);
        RunIsMonotone(r1, ops[1..], subject);
      }
    }
  }

  lemma HeldIsFiled(r: Registry, subject: string, content: Request)
    requires RegistryOk(r) && Holds(r, subject, content)
    ensures content in r.ids
    ensures Entries(r, subject)[IndexOf(Entries(r, subject), content)].id == IdFor(r, content)
  {
    assert SubjectOk(r, subject);
  }

  /** The version the operator reports for an id: the POST, then other writers, then the lookup. */
  function ReportedVersion(r: Registry, subject: string, outcome: Outcome): nat {
    var v := LatestVersion(r, subject);
    if outcome.Done? && v.Some? then v.value else 0
  }

  /** The version under which the subject holds the content. */
  function HeldVersion(r: Registry, subject: string, content: Request): nat
    requires Holds(r, subject, content)
  {
    Entries(r, subject)[IndexOf(Entries(r, subject), content)].version
  }

  /** Without deletions the reported version is 0 or at least the one that holds the content. The
      two agree exactly when the lookup was answered and the content is the subject's newest. */
  lemma VersionBound(r: Registry, subject: string, content: Request, between: seq<Op>, outcome: Outcome)
    requires RegistryOk(r) && NoDeletion(between, subject)
    ensures var r' := PerformAll(Register(r, subject, content), between);
            && Holds(r', subject, content)
            && (var v, held := ReportedVersion(r', subject, outcome), HeldVersion(r', subject, content);
                && held >= 1
                && (v == 0 || v >= held)
                && (v == 0 <==> !outcome.Done?)
                && (v == held <==>
                     outcome.Done? && IndexOf(Entries(r', subject), content) == |Entries(r', subject)| - 1))
  {
    var r1 := Register(r, subject, content);
    var r' := PerformAll(r1, between);
    RegisterKeepsOk(r, subject, content);
    RunIsMonotone(r1, between, subject);
    PrefixHolds(r1, r', subject, content);
    assert SubjectOk(r', subject);
  }

  /** When the POST itself created the version and nobody registered under the subject before the
      lookup, the version reported is the one created. */
  lemma CreatedVersionIsReported(r: Registry, subject: string, content: Request, between: seq<Op>)
    requires RegistryOk(r) && !Holds(r, subject, content)
    requires forall i :: 0 <= i < |between| ==> between[i].subject != subject
    ensures var r' := PerformAll(Register(r, subject, content), between);
            ReportedVersion(r', subject, Done) == Counter(r, subject) + 1
  {
    OthersDoNotTouch(Register(r, subject, content), between, subject);
  }

  lemma {:induction false} OthersDoNotTouch(r: Registry, ops: seq<Op>, subject: string)
    requires forall i :: 0 <= i < |ops| ==> ops[i].subject != subject
    ensures Entries(PerformAll(r, ops), subject) == Entries(r, subject)
    decreases |ops|
  {
    if ops != [] {
      assert ops[0].subject != subject;
      OthersDoNotTouch(Perform(r, ops[0]), ops[1..], subject);
    }
  }

  /** The reported version need not be the one that holds the returned id: re-registering older
      content reports the newest version instead. */
  lemma OlderContentReportsNewerVersion(older: Request, newer: Request)
    requires older != newer
    ensures var r := Register(Register(Register(EMPTY, "s", older), "s", newer), "s", older);
            Holds(r, "s", older) && HeldVersion(r, "s", older) == 1 && ReportedVersion(r, "s", Done) == 2
  {
    var r1 := Register(EMPTY, "s", older);
    var r2 := Register(r1, "s", newer);
    assert Entries(r1, "s") == [Entry(1, 1, older)];
    assert Entries(r2, "s") == [Entry(1, 1, older), Entry(2, IdFor(r1, newer), newer)];
  }

  /** Deleting twice is deleting once, and what other subjects hold is untouched. */
  lemma DeleteIsIdempotent(r: Registry, subject: string, other: string)
    ensures Delete(Delete(r, subject), subject) == Delete(r, subject)
    ensures Entries(Delete(r, subject), subject) == []
    ensures other != subject ==> Entries(Delete(r, subject), other) == Entries(r, other)
  {
    assert r.subjects - {subject} - {subject} == r.subjects - {subject};
  }
}
