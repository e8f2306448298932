/** What the operator relies on from Kubernetes: the version history that the API server
    keeps for one key, the informer cache that trails behind it, and status conditions. */
module Kube {
  datatype Option<+T> = None | Some(value: T)

  datatype Result<+T, +E> = Ok(value: T) | Err(error: E)

  datatype Key = Key(namespace: string, name: string)

  /** Every state one key has been in, oldest first (`None` = no object), and how far the
      informer has got. The last entry is the API server's; entry `seen` is the cache's. */
  datatype RawSlot<T> = Slot(hist: seq<Option<T>>, seen: nat)

  type Slot<T> = s: RawSlot<T> | s.seen < |s.hist| witness Slot([None], 0)

  function Live<T>(s: Slot<T>): Option<T> {
    s.hist[|s.hist| - 1]
  }

  function Cached<T>(s: Slot<T>): Option<T> {
    s.hist[s.seen]
  }

  /** No watch event of this key is still under way. */
  predicate Delivered<T>(s: Slot<T>) {
    s.seen == |s.hist| - 1
  }

  function Append<T>(s: Slot<T>, v: Option<T>): Slot<T> {
    Slot(s.hist + [v], s.seen)
  }

  function AdvanceTo<T>(s: Slot<T>, to: nat): Slot<T>
    requires to < |s.hist|
  {
    Slot(s.hist, to)
  }

  /** How a write or a remote call can end: done and answered, done with the answer lost,
      or not done. */
  datatype Outcome = Done | Lost | Refused

  datatype ConditionStatus = IsTrue | IsFalse | IsUnknown

  /** The two message formats the controllers write. */
  datatype Message = RegisteredAs(id: int, version: int) | Text(text: string)

  datatype Condition = Condition(kind: string, status: ConditionStatus, reason: string,
                                 message: Message, observedGeneration: nat, lastTransition: nat)

  function FindCondition(cs: seq<Condition>, kind: string): Option<Condition> {
    if cs == [] then None
    else if cs[0].kind == kind then Some(cs[0])
    else FindCondition(cs[1..], kind)
  }

  function CountKind(cs: seq<Condition>, kind: string): nat {
    if cs == [] then 0
    else (if cs[0].kind == kind then 1 else 0) + CountKind(cs[1..], kind)
  }

  /** The API library's rule: the first condition of the same kind is overwritten in place, but
      keeps its transition time while the status stays the same; otherwise `c` is appended. */
  function SetStatusCondition(cs: seq<Condition>, c: Condition, now: nat): seq<Condition> {
    if cs == [] then [c.(lastTransition := now)]
    else if cs[0].kind == c.kind then
      [c.(lastTransition := if cs[0].status == c.status then cs[0].lastTransition else now)] + cs[1..]
    else [cs[0]] + SetStatusCondition(cs[1..], c, now)
  }

  /** Setting a condition is seen by the next lookup of its kind, keeps the transition time if and only if
      the status stays, never makes a second one of that kind, and is invisible to lookups of
      every other kind. */
  lemma {:induction false} SetStatusConditionMeaning(cs: seq<Condition>, c: Condition, now: nat, other: string)
    requires other != c.kind
    ensures var r := SetStatusCondition(cs, c, now);
            && FindCondition(r, c.kind).Some?
            && FindCondition(r, c.kind).value.(lastTransition := c.lastTransition) == c
            && FindCondition(r, c.kind).value.lastTransition ==
               (if FindCondition(cs, c.kind).Some? && FindCondition(cs, c.kind).value.status == c.status
                then FindCondition(cs, c.kind).value.lastTransition else now)
            && FindCondition(r, other) == FindCondition(cs, other)
            && CountKind(r, other) == CountKind(cs, other)
            && CountKind(r, c.kind) == (if CountKind(cs, c.kind) == 0 then 1 else CountKind(cs, c.kind))
    decreases |cs|
  {
    var r := SetStatusCondition(cs, c, now);
    if cs != [] {
      assert r[1..] == if cs[0].kind == c.kind then cs[1..] else SetStatusCondition(cs[1..], c, now);
      if cs[0].kind != c.kind {
        SetStatusConditionMeaning(cs[1..], c, now, other);
      }
    }
  }

  /** Conditions of every other kind are as they were. */
  ghost predicate OthersUntouched(a: seq<Condition>, b: seq<Condition>, kind: string) {
    forall other :: other != kind ==>
      FindCondition(b, other) == FindCondition(a, other) && CountKind(b, other) == CountKind(a, other)
  }

  lemma SetStatusConditionKeepsOthers(cs: seq<Condition>, c: Condition, now: nat)
    ensures OthersUntouched(cs, SetStatusCondition(cs, c, now), c.kind)
  {
    forall other | other != c.kind
      ensures FindCondition(SetStatusCondition(cs, c, now), other) == FindCondition(cs, other)
      ensures CountKind(SetStatusCondition(cs, c, now), other) == CountKind(cs, other)
    {
      SetStatusConditionMeaning(cs, c, now, other);
    }
    hide FindCondition, CountKind, SetStatusCondition;
  }

  /** Setting a condition that is already there, up to its transition time, changes nothing. */
  lemma {:induction false} SetStatusConditionIdempotent(cs: seq<Condition>, c: Condition, now: nat)
    ensures SetStatusCondition(cs, c, now) == cs <==>
            (FindCondition(cs, c.kind).Some? &&
              c.(lastTransition := FindCondition(cs, c.kind).value.lastTransition) == FindCondition(cs, c.kind).value)
    decreases |cs|
  {
    var r := SetStatusCondition(cs, c, now);
    if cs != [] {
      assert cs == [cs[0]] + cs[1..];
      if cs[0].kind == c.kind {
        assert r[0].lastTransition == if cs[0].status == c.status then cs[0].lastTransition else now;
        assert r[1..] == cs[1..];
      } else {
        assert r[1..] == SetStatusCondition(cs[1..], c, now);
        SetStatusConditionIdempotent(cs[1..], c, now);
      }
    }
  }

  /** A kind that occurs is found. */
  lemma {:induction false} FindByCount(cs: seq<Condition>, kind: string)
    ensures FindCondition(cs, kind).Some? <==> CountKind(cs, kind) > 0
    ensures FindCondition(cs, kind).Some? ==> FindCondition(cs, kind).value.kind == kind
    decreases |cs|
  {
    if cs != [] {
      FindByCount(cs[1..], kind);
    }
  }
}
