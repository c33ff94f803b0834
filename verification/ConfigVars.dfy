/**
 `ConfigVar` (src/config/config.h:247-323) in sequential runs: a value with change listeners. What each listener is
 called with is recorded, and it is known which calls throw. `setValue` is not safe against exceptions: a listener
 that throws ends the call before the value is stored, when listeners before it have been told already.
 */
module ConfigVars {
  import opened Options
  import opened Sequences

  /**
   What a variable's behaviour depends on besides its state: the type's `operator==`, which need not be equality,
   and which listeners throw when they are called with which values. An id stands for one listener for ever.
   */
  datatype Kind<!V> = Kind(eq: (V, V) -> bool, throws: (nat, V, V) -> bool)

  /** One call of a listener. */
  datatype Call<V> = Call(id: nat, oldValue: V, newValue: V)

  /** The state of a variable: its value, the ids of its listeners in order, and the calls made so far. */
  datatype VarState<V> = VarState(val: V, cbs: seq<nat>, calls: seq<Call<V>>)

  datatype Op<V> = SetValue(v: V) | AddListener(id: nat) | DelListener(id: nat) | ClearListener

  function Round<V>(cbs: seq<nat>, oldValue: V, newValue: V): seq<Call<V>> {
    if cbs == [] then []
    else [Call(cbs[0], oldValue, newValue)] + Round(cbs[1..], oldValue, newValue)
  }

  /** The listeners that are called for a change: all of them in order, up to the first that throws. */
  function Audience<V>(throws: (nat, V, V) -> bool, cbs: seq<nat>, oldValue: V, newValue: V): seq<nat> {
    if cbs == [] then []
    else if throws(cbs[0], oldValue, newValue) then [cbs[0]]
    else [cbs[0]] + Audience(throws, cbs[1..], oldValue, newValue)
  }

  /** One of the listeners throws. */
  predicate Fails<V>(throws: (nat, V, V) -> bool, cbs: seq<nat>, oldValue: V, newValue: V) {
    cbs != [] && (throws(cbs[0], oldValue, newValue) || Fails(throws, cbs[1..], oldValue, newValue))
  }

  function Without(cbs: seq<nat>, id: nat): seq<nat> {
    if cbs == [] then [] else (if cbs[0] == id then [] else [cbs[0]]) + Without(cbs[1..], id)
  }

  /** `setValue` of a value that differs: the calls, and the new value unless a listener throws. */
  function Changed<V>(kind: Kind<V>, s: VarState<V>, v: V): VarState<V> {
    var calls := s.calls + Round(Audience(kind.throws, s.cbs, s.val, v), s.val, v);
    s.(val := if Fails(kind.throws, s.cbs, s.val, v) then s.val else v, calls := calls)
  }

  function Apply<V>(kind: Kind<V>, s: VarState<V>, op: Op<V>): VarState<V> {
    match op
    case SetValue(v) => if kind.eq(s.val, v) then s else Changed(kind, s, v)
    case AddListener(id) => s.(cbs := s.cbs + [id])
    case DelListener(id) => s.(cbs := Without(s.cbs, id))
    case ClearListener => s.(cbs := [])
  }

  function Run<V>(kind: Kind<V>, s: VarState<V>, ops: seq<Op<V>>): VarState<V>
    decreases |ops|
  {
    if ops == [] then s else Run(kind, Apply(kind, s, ops[0]), ops[1..])
  }

  /** The call of `setValue` returns normally. */
  predicate Succeeds<V>(kind: Kind<V>, s: VarState<V>, v: V) {
    kind.eq(s.val, v) || !Fails(kind.throws, s.cbs, s.val, v)
  }

  predicate Increasing(cbs: seq<nat>) { forall j, k :: 0 <= j < k < |cbs| ==> cbs[j] < cbs[k] }

  predicate Below(cbs: seq<nat>, bound: nat) { forall k :: 0 <= k < |cbs| ==> cbs[k] <= bound }

  lemma {:induction false} WithoutKeepsOrder(cbs: seq<nat>, id: nat, bound: nat)
    requires Increasing(cbs) && Below(cbs, bound)
    ensures Increasing(Without(cbs, id)) && Below(Without(cbs, id), bound)
    ensures forall x :: x in Without(cbs, id) <==> x in cbs && x != id
  {
    if cbs != [] {
      assert forall x :: x in cbs <==> x == cbs[0] || x in cbs[1..];
      WithoutKeepsOrder(cbs[1..], id, bound);
      var rest := Without(cbs[1..], id);
      forall k | 0 <= k < |rest| ensures cbs[0] < rest[k] {
        assert rest[k] in cbs[1..];
      }
    }
  }

  /** The counter `s_func_id`, shared by the variables of one type. */
  class IdSource {
    var last: nat

    constructor ()
      ensures last == 0
    {
      last := 0;
    }
  }

  class ConfigVar<V> {
    const name: string
    const typeName: string
    const kind: Kind<V>
    const fromStr: string -> Option<V>
    const ids: IdSource
    var val: V
    var cbs: seq<nat>
    var calls: seq<Call<V>>

    constructor (defaultValue: V, name: string, typeName: string, kind: Kind<V>,
                 fromStr: string -> Option<V>, ids: IdSource)
      ensures this.name == name && this.typeName == typeName && this.kind == kind && this.fromStr == fromStr
      ensures this.ids == ids && Abstract() == VarState(defaultValue, [], []) && Valid()
    {
      this.name, this.typeName, this.kind, this.fromStr, this.ids := name, typeName, kind, fromStr, ids;
      val, cbs, calls := defaultValue, [], [];
    }

    ghost function Abstract(): VarState<V>
      reads this
    {
      VarState(val, cbs, calls)
    }

    /** The map from ids to callbacks is in ascending order of ids, and no id is used twice. */
    ghost predicate Valid()
      reads this, ids
    {
      Increasing(cbs) && Below(cbs, ids.last)
    }

    /** The result is false if an exception leaves the method. */
    method SetValue(v: V) returns (ok: bool)
      modifies this
      ensures ok == Succeeds(kind, old(Abstract()), v)
      ensures Abstract() == Apply(kind, old(Abstract()), Op.SetValue(v))
      ensures old(Valid()) ==> Valid()
    {
      if kind.eq(val, v) {
        return true;
      }
      for k := 0 to |cbs|
        invariant val == old(val) && cbs == old(cbs)
        invariant calls + Round(Audience(kind.throws, cbs[k..], val, v), val, v)
               == old(calls) + Round(Audience(kind.throws, cbs, val, v), val, v)
        invariant Fails(kind.throws, cbs[k..], val, v) == Fails(kind.throws, cbs, val, v)
      {
        assert cbs[k..][1..] == cbs[k + 1..];
        calls := calls + [Call(cbs[k], val, v)];
        if kind.throws(cbs[k], val, v) {
          return false;
        }
      }
      val := v;
      ok := true;
    }

    /** Converts and sets; an exception from the conversion or from a listener is caught and reported. */
    method FromString(text: string) returns (ok: bool)
      modifies this
      ensures ok == match fromStr(text)
                    case None => false
                    case Some(v) => Succeeds(kind, old(Abstract()), v)
      ensures Abstract() == match fromStr(text)
                            case None => old(Abstract())
                            case Some(v) => Apply(kind, old(Abstract()), Op.SetValue(v))
      ensures old(Valid()) ==> Valid()
    {
      match fromStr(text) {
        case Some(v) =>
          ok := SetValue(v);
        case None =>
          ok := false;
      }
    }

    method AddListener() returns (id: nat)
      requires Valid()
      modifies this, ids
      ensures id == ids.last == old(ids.last) + 1 && id !in old(cbs)
      ensures Abstract() == Apply(kind, old(Abstract()), Op.AddListener(id)) && Valid()
      ensures cbs == old(cbs) + [id] && val == old(val) && calls == old(calls)
    {
      ids.last := ids.last + 1;
      id := ids.last;
      cbs := cbs + [id];
    }

    method DelListener(key: nat)
      requires Valid()
      modifies this
      ensures Abstract() == Apply(kind, old(Abstract()), Op.DelListener(key)) && Valid()
      ensures (forall x :: x in cbs <==> x in old(cbs) && x != key) && val == old(val) && calls == old(calls)
    {
      WithoutKeepsOrder(cbs, key, ids.last);
      cbs := Without(cbs, key);
    }

    method ClearListener()
      requires Valid()
      modifies this
      ensures Abstract() == Apply(kind, old(Abstract()), Op.ClearListener) && Valid()
      ensures cbs == [] && val == old(val) && calls == old(calls)
    {
      cbs := [];
    }
  }

  // ---- What a listener hears ------------------------------------------------------------------------------

  /** The pairs that listener `id` was called with. */
  function Heard<V>(id: nat, calls: seq<Call<V>>): seq<(V, V)> {
    if calls == [] then []
    else HeardFrom(id, calls[0]) + Heard(id, calls[1..])
  }

  function HeardFrom<V>(id: nat, c: Call<V>): seq<(V, V)> {
    if c.id == id then [(c.oldValue, c.newValue)] else []
  }

  /** An unbroken chain of changes from `first` to `last`, each a change in the sense of `eq`. */
  predicate Chain<V(==)>(eq: (V, V) -> bool, pairs: seq<(V, V)>, first: V, last: V) {
    if pairs == [] then first == last
    else pairs[0].0 == first && !eq(first, pairs[0].1) && Chain(eq, pairs[1..], pairs[0].1, last)
  }

  /** The operations leave listener `id` registered and do not register its id again. */
  predicate Persistent<V>(ops: seq<Op<V>>, id: nat) {
    forall k :: 0 <= k < |ops| ==> ops[k] != DelListener(id) && !ops[k].ClearListener? && ops[k] != AddListener(id)
  }

  lemma {:induction false} HeardConcat<V>(id: nat, a: seq<Call<V>>, b: seq<Call<V>>)
    ensures Heard(id, a + b) == Heard(id, a) + Heard(id, b)
  {
    if a == [] {
      assert a + b == b;
    } else {
      assert (a + b)[1..] == a[1..] + b && (a + b)[0] == a[0];
      HeardConcat(id, a[1..], b);
      Associative(HeardFrom(id, a[0]), Heard(id, a[1..]), Heard(id, b));
    }
  }

  predicate Once(cbs: seq<nat>, id: nat) {
    id in cbs && forall j, k :: 0 <= j < k < |cbs| && cbs[j] == id ==> cbs[k] != id
  }

  lemma {:induction false} HeardInRound<V>(id: nat, cbs: seq<nat>, oldValue: V, newValue: V)
    ensures id !in cbs ==> Heard(id, Round(cbs, oldValue, newValue)) == []
    ensures Once(cbs, id) ==> Heard(id, Round(cbs, oldValue, newValue)) == [(oldValue, newValue)]
  {
    if cbs != [] {
      HeardInRound(id, cbs[1..], oldValue, newValue);
      assert Round(cbs, oldValue, newValue)[1..] == Round(cbs[1..], oldValue, newValue);
      if Once(cbs, id) {
        if cbs[0] == id {
          assert id !in cbs[1..];
        } else {
          assert Once(cbs[1..], id);
        }
      }
    }
  }

  lemma {:induction false} OnceWithout(cbs: seq<nat>, id: nat, other: nat)
    requires Once(cbs, id) && other != id
    ensures Once(Without(cbs, other), id)
  {
    if cbs[0] == id {
      AbsentWithout(cbs[1..], id, other);
      var rest := Without(cbs[1..], other);
      assert Without(cbs, other) == [id] + rest && id !in rest;
    } else {
      assert Once(cbs[1..], id);
      OnceWithout(cbs[1..], id, other);
    }
  }

  lemma {:induction false} AbsentWithout(cbs: seq<nat>, id: nat, other: nat)
    requires id !in cbs
    ensures id !in Without(cbs, other)
  {
    if cbs != [] {
      AbsentWithout(cbs[1..], id, other);
    }
  }

  lemma {:induction false} AllAreCalled<V>(throws: (nat, V, V) -> bool, cbs: seq<nat>, oldValue: V, newValue: V)
    requires !Fails(throws, cbs, oldValue, newValue)
    ensures Audience(throws, cbs, oldValue, newValue) == cbs
  {
    if cbs != [] {
      AllAreCalled(throws, cbs[1..], oldValue, newValue);
    }
  }

  /** The listeners that are called are the first of the list. */
  lemma {:induction false} AudienceIsPrefix<V>(throws: (nat, V, V) -> bool, cbs: seq<nat>, oldValue: V, newValue: V)
    ensures Audience(throws, cbs, oldValue, newValue) <= cbs
  {
    if cbs != [] {
      AudienceIsPrefix(throws, cbs[1..], oldValue, newValue);
    }
  }

  lemma OnceInPrefix(told: seq<nat>, cbs: seq<nat>, id: nat)
    requires told <= cbs && Once(cbs, id) && id in told
    ensures Once(told, id)
  {
  }

  /** The operation tells the listener of a change that then does not happen. */
  predicate InVain<V>(kind: Kind<V>, s: VarState<V>, op: Op<V>, id: nat) {
    op.SetValue? && !Succeeds(kind, s, op.v) && id in Audience(kind.throws, s.cbs, s.val, op.v)
  }

  /** No operation of the run tells the listener in vain. */
  predicate NeverInVain<V>(kind: Kind<V>, s: VarState<V>, ops: seq<Op<V>>, id: nat)
    decreases |ops|
  {
    ops != [] ==> !InVain(kind, s, ops[0], id) && NeverInVain(kind, Apply(kind, s, ops[0]), ops[1..], id)
  }

  /** One operation adds at most one pair to what a listener hears, and one if it changes the value. */
  lemma StepHeard<V>(kind: Kind<V>, s: VarState<V>, op: Op<V>, id: nat)
    requires Once(s.cbs, id) && op != DelListener(id) && !op.ClearListener? && op != AddListener(id)
    ensures var t := Apply(kind, s, op);
      && Once(t.cbs, id)
      && (if op.SetValue? && !kind.eq(s.val, op.v) && id in Audience(kind.throws, s.cbs, s.val, op.v) then
            && Heard(id, t.calls) == Heard(id, s.calls) + [(s.val, op.v)]
            && t.val == (if InVain(kind, s, op, id) then s.val else op.v)
          else
            Heard(id, t.calls) == Heard(id, s.calls) && t.val == s.val)
  {
    match op
    case SetValue(v) =>
      var told := Audience(kind.throws, s.cbs, s.val, v);
      AudienceIsPrefix(kind.throws, s.cbs, s.val, v);
      if id in told {
        OnceInPrefix(told, s.cbs, id);
      }
      if !Fails(kind.throws, s.cbs, s.val, v) {
        AllAreCalled(kind.throws, s.cbs, s.val, v);
      }
      HeardInRound(id, told, s.val, v);
      HeardConcat(id, s.calls, Round(told, s.val, v));
    case AddListener(other) =>
    case DelListener(other) => OnceWithout(s.cbs, id, other);
  }

  /** The pairs that the listener hears in the run. */
  ghost function NewlyHeard<V>(kind: Kind<V>, s: VarState<V>, ops: seq<Op<V>>, id: nat): seq<(V, V)>
    decreases |ops|
  {
    if ops == [] then []
    else
      (if ops[0].SetValue? && !kind.eq(s.val, ops[0].v) && id in Audience(kind.throws, s.cbs, s.val, ops[0].v)
       then [(s.val, ops[0].v)] else [])
      + NewlyHeard(kind, Apply(kind, s, ops[0]), ops[1..], id)
  }

  lemma PersistentTail<V>(ops: seq<Op<V>>, id: nat)
    requires ops != [] && Persistent(ops, id)
    ensures Persistent(ops[1..], id)
    ensures ops[0] != DelListener(id) && !ops[0].ClearListener? && ops[0] != AddListener(id)
  {
  }

  lemma {:induction false} RunHeard<V>(kind: Kind<V>, s: VarState<V>, ops: seq<Op<V>>, id: nat)
    requires Once(s.cbs, id) && Persistent(ops, id)
    ensures Heard(id, Run(kind, s, ops).calls) == Heard(id, s.calls) + NewlyHeard(kind, s, ops, id)
    decreases |ops|
  {
    if ops != [] {
      PersistentTail(ops, id);
      StepHeard(kind, s, ops[0], id);
      RunHeard(kind, Apply(kind, s, ops[0]), ops[1..], id);
      var one := if ops[0].SetValue? && !kind.eq(s.val, ops[0].v) && id in Audience(kind.throws, s.cbs, s.val, ops[0].v)
                 then [(s.val, ops[0].v)] else [];
      Associative(Heard(id, s.calls), one, NewlyHeard(kind, Apply(kind, s, ops[0]), ops[1..], id));
    }
  }

  /** The first pair starts from the value at the start of the run; without a pair the value stays. */
  lemma {:induction false} FirstPairStarts<V>(kind: Kind<V>, s: VarState<V>, ops: seq<Op<V>>, id: nat)
    requires Once(s.cbs, id) && Persistent(ops, id)
    ensures var pairs := NewlyHeard(kind, s, ops, id);
      if pairs == [] then Run(kind, s, ops).val == s.val else pairs[0].0 == s.val
    decreases |ops|
  {
    if ops != [] {
      PersistentTail(ops, id);
      StepHeard(kind, s, ops[0], id);
      FirstPairStarts(kind, Apply(kind, s, ops[0]), ops[1..], id);
    }
  }

  /** `operator==` takes every value for equal to itself. */
  ghost predicate Reflexive<V(!new)>(eq: (V, V) -> bool) { forall x :: eq(x, x) }

  lemma {:induction false} ChainHolds<V>(kind: Kind<V>, s: VarState<V>, ops: seq<Op<V>>, id: nat)
    requires Once(s.cbs, id) && Persistent(ops, id) && NeverInVain(kind, s, ops, id)
    ensures Chain(kind.eq, NewlyHeard(kind, s, ops, id), s.val, Run(kind, s, ops).val)
    decreases |ops|
  {
    if ops != [] {
      PersistentTail(ops, id);
      StepHeard(kind, s, ops[0], id);
      ChainHolds(kind, Apply(kind, s, ops[0]), ops[1..], id);
      assert NewlyHeard(kind, s, ops, id) == NewlyHeard(kind, Apply(kind, s, ops[0]), ops[1..], id)
          || NewlyHeard(kind, s, ops, id)[1..] == NewlyHeard(kind, Apply(kind, s, ops[0]), ops[1..], id);
    }
  }

  lemma {:induction false} ChainBreaks<V(!new)>(kind: Kind<V>, s: VarState<V>, ops: seq<Op<V>>, id: nat)
    requires Once(s.cbs, id) && Persistent(ops, id) && Reflexive(kind.eq) && !NeverInVain(kind, s, ops, id)
    ensures !Chain(kind.eq, NewlyHeard(kind, s, ops, id), s.val, Run(kind, s, ops).val)
    decreases |ops|
  {
    var t := Apply(kind, s, ops[0]);
    PersistentTail(ops, id);
    StepHeard(kind, s, ops[0], id);
    var rest := NewlyHeard(kind, t, ops[1..], id);
    if InVain(kind, s, ops[0], id) {
      FirstPairStarts(kind, t, ops[1..], id);
      assert NewlyHeard(kind, s, ops, id)[1..] == rest && t.val == s.val != ops[0].v;
    } else {
      ChainBreaks(kind, t, ops[1..], id);
      assert NewlyHeard(kind, s, ops, id) == rest || NewlyHeard(kind, s, ops, id)[1..] == rest;
    }
  }

  /**
   In a sequential run the pairs that a listener hears while it stays registered are an unbroken chain from the
   value at the start of the run to the value at its end, provided that it is never told of a change that a throwing
   listener then prevents. If `operator==` takes every value for equal to itself, that is the exact condition.
   */
  lemma ListenerHearsChain<V(!new)>(kind: Kind<V>, s: VarState<V>, ops: seq<Op<V>>, id: nat)
    returns (pairs: seq<(V, V)>)
    requires Once(s.cbs, id) && Persistent(ops, id)
    ensures Heard(id, Run(kind, s, ops).calls) == Heard(id, s.calls) + pairs
    ensures NeverInVain(kind, s, ops, id) ==> Chain(kind.eq, pairs, s.val, Run(kind, s, ops).val)
    ensures Reflexive(kind.eq) ==>
      (Chain(kind.eq, pairs, s.val, Run(kind, s, ops).val) <==> NeverInVain(kind, s, ops, id))
  {
    pairs := NewlyHeard(kind, s, ops, id);
    RunHeard(kind, s, ops, id);
    if NeverInVain(kind, s, ops, id) {
      ChainHolds(kind, s, ops, id);
    } else if Reflexive(kind.eq) {
      ChainBreaks(kind, s, ops, id);
    }
  }

  ghost predicate NoneThrows<V(!new)>(throws: (nat, V, V) -> bool) { forall id, x, y :: !throws(id, x, y) }

  lemma {:induction false} NothingFails<V(!new)>(throws: (nat, V, V) -> bool, cbs: seq<nat>, oldValue: V, newValue: V)
    requires NoneThrows(throws)
    ensures !Fails(throws, cbs, oldValue, newValue)
  {
    if cbs != [] {
      NothingFails(throws, cbs[1..], oldValue, newValue);
    }
  }

  /** If no listener throws, no listener is ever told in vain. */
  lemma {:induction false} QuietIsNeverInVain<V(!new)>(kind: Kind<V>, s: VarState<V>, ops: seq<Op<V>>, id: nat)
    requires NoneThrows(kind.throws)
    ensures NeverInVain(kind, s, ops, id)
    decreases |ops|
  {
    if ops != [] {
      if ops[0].SetValue? {
        NothingFails(kind.throws, s.cbs, s.val, ops[0].v);
      }
      QuietIsNeverInVain(kind, Apply(kind, s, ops[0]), ops[1..], id);
    }
  }

  /** Listener 1 is told of the change from 0 to 5, listener 2 throws, and the value is still 0. */
  lemma ThrowingListener()
    ensures var kind := Kind((x: int, y: int) => x == y, (id: nat, x: int, y: int) => id == 2);
      var s := VarState(0, [1, 2, 3], []);
      && !Succeeds(kind, s, 5)
      && Apply(kind, s, Op.SetValue(5)) == VarState(0, [1, 2, 3], [Call(1, 0, 5), Call(2, 0, 5)])
  {
    var throws := (id: nat, x: int, y: int) => id == 2;
    assert [1, 2, 3][1..] == [2, 3] && [2, 3][0] == 2;
    assert Audience(throws, [2, 3], 0, 5) == [2];
    assert Audience(throws, [1, 2, 3], 0, 5) == [1] + [2];
    assert [1, 2][1..] == [2] && [2][1..] == [];
    assert Round([2], 0, 5) == [Call(2, 0, 5)];
  }
}
