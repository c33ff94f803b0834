/**
 When a listener of `ConfigVar` hears an unbroken chain of changes although threads call `setValue` at the same
 time (src/config/config.h:282-317): exactly if no round of notifications begins while another is open.
 */
module ConfigChains {
  import opened Bags
  import opened ConfigRounds
  import opened ConfigVars

  ghost predicate AllIdle<V>(s: ConfigRounds.State<V>) { forall t :: 0 <= t < |s.threads| ==> s.threads[t].Idle? }

  /** The thread has started a round and has not written its value yet. */
  predicate Open<V>(s: ConfigRounds.State<V>, t: nat) { t < |s.threads| && !s.threads[t].Idle? }

  /** The step after state `k` starts a round while another round is open. */
  ghost predicate OverlapAt<V>(run: seq<ConfigRounds.State<V>>, k: nat)
    requires k + 1 < |run|
  {
    |run[k].rounds| < |run[k + 1].rounds| && !AllIdle(run[k])
  }

  ghost predicate Overlaps<V>(run: seq<ConfigRounds.State<V>>) {
    exists k: nat :: k + 1 < |run| && OverlapAt(run, k)
  }

  /** The listener is registered, once, in all states of the run. */
  ghost predicate Registered<V>(run: seq<ConfigRounds.State<V>>, id: nat) {
    forall k :: 0 <= k < |run| ==> Once(run[k].cbs, id)
  }

  /** The thread's round has called the listener. */
  predicate Told<V>(s: ConfigRounds.State<V>, t: nat, id: nat) {
    t < |s.threads| &&
    match s.threads[t]
    case Idle => false
    case Notifying(_, n, _) => n <= |s.cbs| && id in s.cbs[..n]
    case Announced(_, _) => true
  }

  lemma {:induction false} ChainSnoc<V>(eq: (V, V) -> bool, pairs: seq<(V, V)>, first: V, mid: V, last: V)
    requires Chain(eq, pairs, first, mid) && !eq(mid, last)
    ensures Chain(eq, pairs + [(mid, last)], first, last)
  {
    if pairs == [] {
      assert (pairs + [(mid, last)])[1..] == [];
    } else {
      assert (pairs + [(mid, last)])[1..] == pairs[1..] + [(mid, last)];
      ChainSnoc(eq, pairs[1..], pairs[0].1, mid, last);
    }
  }

  /** The calls of one more step: at most one, of the next listener of a notifying thread. */
  lemma HeardStep<V>(eq: (V, V) -> bool, s: ConfigRounds.State<V>, step: Step<V>, id: nat)
    requires Can(s, step)
    ensures Heard(id, ConfigRounds.Apply(eq, s, step).log)
         == Heard(id, s.log) + if step.Notify? && s.cbs[s.threads[step.t].next] == id
                               then [(s.val, s.threads[step.t].v)] else []
  {
    if step.Notify? {
      var call := Call(s.cbs[s.threads[step.t].next], s.val, s.threads[step.t].v);
      HeardConcat(id, s.log, [call]);
      assert Heard(id, [call]) == HeardFrom(id, call);
    }
  }

  /** What a step does to one thread's having told the listener. */
  lemma ToldStep<V>(eq: (V, V) -> bool, s: ConfigRounds.State<V>, step: Step<V>, id: nat, t: nat)
    requires Inv(eq, s) && Can(s, step) && Once(s.cbs, id) && Open(s, t)
    requires step != Step.Write(t)
    ensures var s' := ConfigRounds.Apply(eq, s, step);
      && Open(s', t) && s'.threads[t].v == s.threads[t].v
      && (Told(s', t, id) <==> Told(s, t, id)
                               || (step == Step.Notify(t) && s.cbs[s.threads[t].next] == id))
  {
    var s' := ConfigRounds.Apply(eq, s, step);
    assert PhaseOk(s, s.threads[t]);
    if step == Step.Notify(t) {
      var n := s.threads[t].next;
      assert s.cbs[..n + 1] == s.cbs[..n] + [s.cbs[n]];
    } else if step == EndRead(t) {
      assert s.cbs[..|s.cbs|] == s.cbs;
    }
  }

  /** A listener that a round has told is not called by it again; the announced value differs from the current. */
  lemma NotifyFresh<V>(eq: (V, V) -> bool, s: ConfigRounds.State<V>, t: nat, id: nat)
    requires Inv(eq, s) && Can(s, Step.Notify(t)) && Once(s.cbs, id)
    ensures s.cbs[s.threads[t].next] == id ==> !Told(s, t, id)
    ensures !eq(s.val, s.threads[t].v)
  {
    assert PhaseOk(s, s.threads[t]) && RoundOk(eq, s, s.threads[t].r);
  }

  // ---- Without overlap the chain holds ----------------------------------------------------------------------

  /** At most one round is open. */
  ghost predicate Serial<V>(s: ConfigRounds.State<V>) {
    forall t: nat, u: nat :: Open(s, t) && Open(s, u) ==> t == u
  }

  /** A chain to the announced value `v`, whose last pair starts from the current value. */
  ghost predicate ToldChain<V>(eq: (V, V) -> bool, pairs: seq<(V, V)>, first: V, val: V, v: V) {
    && Chain(eq, pairs, first, v)
    && pairs != [] && pairs[|pairs| - 1].0 == val && !eq(val, pairs[|pairs| - 1].1)
  }

  ghost predicate NobodyTold<V>(s: ConfigRounds.State<V>, id: nat) { forall t: nat :: !Told(s, t, id) }

  /**
   What the listener has heard is a chain from `first` to the current value, or to the announced value once an
   open round has told it.
   */
  ghost predicate ChainSoFar<V>(eq: (V, V) -> bool, s: ConfigRounds.State<V>, id: nat, first: V) {
    && (NobodyTold(s, id) ==> Chain(eq, Heard(id, s.log), first, s.val))
    && (forall t: nat :: Told(s, t, id) ==> ToldChain(eq, Heard(id, s.log), first, s.val, s.threads[t].v))
  }

  lemma SerialStart<V>(eq: (V, V) -> bool, s: ConfigRounds.State<V>, t: nat, v: V, id: nat, first: V)
    requires Serial(s) && ChainSoFar(eq, s, id, first) && Can(s, Compare(t, v)) && !eq(s.val, v) && AllIdle(s)
    ensures Serial(ConfigRounds.Apply(eq, s, Compare(t, v)))
    ensures ChainSoFar(eq, ConfigRounds.Apply(eq, s, Compare(t, v)), id, first)
  {
    var s' := ConfigRounds.Apply(eq, s, Compare(t, v));
    forall u: nat ensures !Told(s, u, id) && !Told(s', u, id) && (Open(s', u) ==> u == t) {}
  }

  /** A step of the only open round, `t`, that neither calls the listener nor closes the round. */
  lemma SerialQuiet<V>(eq: (V, V) -> bool, s: ConfigRounds.State<V>, s': ConfigRounds.State<V>, t: nat,
                       id: nat, first: V)
    requires Serial(s) && ChainSoFar(eq, s, id, first) && Open(s, t) && |s'.threads| == |s.threads|
    requires s'.val == s.val && Heard(id, s'.log) == Heard(id, s.log)
    requires s'.threads == s.threads[t := s'.threads[t]]
    requires Open(s', t) && s'.threads[t].v == s.threads[t].v && Told(s', t, id) == Told(s, t, id)
    ensures Serial(s') && ChainSoFar(eq, s', id, first)
  {
    forall u: nat ensures Open(s', u) == Open(s, u) && Told(s', u, id) == Told(s, u, id) {
      assert Open(s, u) ==> u == t;
      assert Told(s', u, id) ==> Open(s', u);
    }
  }

  /** The only open round calls the listener. */
  lemma SerialTell<V>(eq: (V, V) -> bool, s: ConfigRounds.State<V>, s': ConfigRounds.State<V>, t: nat,
                      id: nat, first: V)
    requires Serial(s) && ChainSoFar(eq, s, id, first) && Open(s, t) && !Told(s, t, id)
    requires |s'.threads| == |s.threads| && s'.threads == s.threads[t := s'.threads[t]]
    requires s'.val == s.val && !eq(s.val, s.threads[t].v)
    requires Heard(id, s'.log) == Heard(id, s.log) + [(s.val, s.threads[t].v)]
    requires Open(s', t) && s'.threads[t].v == s.threads[t].v && Told(s', t, id)
    ensures Serial(s') && ChainSoFar(eq, s', id, first)
  {
    forall u: nat
      ensures Open(s', u) == Open(s, u) && !Told(s, u, id) && (Told(s', u, id) ==> u == t)
    {
      assert Open(s, u) ==> u == t;
      assert Told(s, u, id) ==> Open(s, u);
      assert Told(s', u, id) ==> Open(s', u);
    }
    assert NobodyTold(s, id);
    ChainSnoc(eq, Heard(id, s.log), first, s.val, s.threads[t].v);
  }

  lemma SerialNotify<V>(eq: (V, V) -> bool, s: ConfigRounds.State<V>, t: nat, id: nat, first: V)
    requires Inv(eq, s) && Once(s.cbs, id) && Serial(s) && ChainSoFar(eq, s, id, first) && Can(s, Step.Notify(t))
    ensures Serial(Called(s, t)) && ChainSoFar(eq, Called(s, t), id, first)
  {
    HeardStep(eq, s, Step.Notify(t), id);
    ToldStep(eq, s, Step.Notify(t), id, t);
    if s.cbs[s.threads[t].next] == id {
      NotifyFresh(eq, s, t, id);
      SerialTell(eq, s, Called(s, t), t, id, first);
    } else {
      assert Heard(id, s.log) + [] == Heard(id, s.log);
      SerialQuiet(eq, s, Called(s, t), t, id, first);
    }
  }

  lemma SerialEndRead<V>(eq: (V, V) -> bool, s: ConfigRounds.State<V>, t: nat, id: nat, first: V)
    requires Inv(eq, s) && Once(s.cbs, id) && Serial(s) && ChainSoFar(eq, s, id, first) && Can(s, EndRead(t))
    ensures Serial(ConfigRounds.Apply(eq, s, EndRead(t)))
    ensures ChainSoFar(eq, ConfigRounds.Apply(eq, s, EndRead(t)), id, first)
  {
    ToldStep(eq, s, EndRead(t), id, t);
    SerialQuiet(eq, s, ConfigRounds.Apply(eq, s, EndRead(t)), t, id, first);
  }

  lemma SerialWrite<V>(eq: (V, V) -> bool, s: ConfigRounds.State<V>, t: nat, id: nat, first: V)
    requires Serial(s) && ChainSoFar(eq, s, id, first) && Can(s, Step.Write(t))
    ensures Serial(ConfigRounds.Apply(eq, s, Step.Write(t)))
    ensures ChainSoFar(eq, ConfigRounds.Apply(eq, s, Step.Write(t)), id, first)
  {
    var s' := ConfigRounds.Apply(eq, s, Step.Write(t));
    assert Told(s, t, id) && Open(s, t);
    forall u: nat ensures !Open(s', u) && !Told(s', u, id) {
      assert Open(s, u) ==> u == t;
    }
  }

  /** Under the write lock nothing but the list of listeners changes. */
  lemma SerialListeners<V>(eq: (V, V) -> bool, s: ConfigRounds.State<V>, cbs: seq<nat>, id: nat, first: V)
    requires Serial(s) && ChainSoFar(eq, s, id, first) && NoReader(s)
    ensures Serial(s.(cbs := cbs)) && ChainSoFar(eq, s.(cbs := cbs), id, first)
  {
    assert forall u: nat :: Open(s.(cbs := cbs), u) <==> Open(s, u);
    assert forall u: nat :: Told(s.(cbs := cbs), u, id) <==> Told(s, u, id);
  }

  lemma SerialStep<V>(eq: (V, V) -> bool, s: ConfigRounds.State<V>, step: Step<V>, id: nat, first: V)
    requires Inv(eq, s) && Once(s.cbs, id) && Serial(s) && ChainSoFar(eq, s, id, first) && Can(s, step)
    requires |s.rounds| < |ConfigRounds.Apply(eq, s, step).rounds| ==> AllIdle(s)
    ensures Serial(ConfigRounds.Apply(eq, s, step)) && ChainSoFar(eq, ConfigRounds.Apply(eq, s, step), id, first)
  {
    match step
    case Compare(t, v) => if !eq(s.val, v) { SerialStart(eq, s, t, v, id, first); }
    case Notify(t) => SerialNotify(eq, s, t, id, first);
    case EndRead(t) => SerialEndRead(eq, s, t, id, first);
    case Write(t) => SerialWrite(eq, s, t, id, first);
    case Add(new') => SerialListeners(eq, s, s.cbs + [new'], id, first);
    case Delete(old') => SerialListeners(eq, s, Without(s.cbs, old'), id, first);
    case Clear => SerialListeners(eq, s, [], id, first);
  }

  lemma SerialNext<V(!new)>(eq: (V, V) -> bool, run: seq<ConfigRounds.State<V>>, id: nat, first: V, k: nat)
    requires IsRun(eq, run) && Registered(run, id) && k + 1 < |run| && !OverlapAt(run, k)
    requires Serial(run[k]) && ChainSoFar(eq, run[k], id, first)
    ensures Serial(run[k + 1]) && ChainSoFar(eq, run[k + 1], id, first)
  {
    RunInv(eq, run, k);
    var step := StepOf(eq, run, k);
    SerialStep(eq, run[k], step, id, first);
  }

  lemma {:induction false} SerialRun<V(!new)>(eq: (V, V) -> bool, run: seq<ConfigRounds.State<V>>, id: nat, k: nat)
    requires IsRun(eq, run) && Registered(run, id) && k < |run|
    requires forall j: nat :: j < k ==> !OverlapAt(run, j)
    ensures Serial(run[k]) && ChainSoFar(eq, run[k], id, run[0].val)
  {
    if k > 0 {
      SerialRun(eq, run, id, k - 1);
      assert !OverlapAt(run, k - 1);
      SerialNext(eq, run, id, run[0].val, k - 1);
    }
  }

  lemma StepOf<V(!new)>(eq: (V, V) -> bool, run: seq<ConfigRounds.State<V>>, k: nat) returns (step: Step<V>)
    requires IsRun(eq, run) && k + 1 < |run|
    ensures Can(run[k], step) && run[k + 1] == ConfigRounds.Apply(eq, run[k], step)
  {
    assert StepAt(eq, run, k);
    step :| Can(run[k], step) && run[k + 1] == ConfigRounds.Apply(eq, run[k], step);
  }

  /** Calls that do not overlap behave like a sequential run, whatever `operator==` is. */
  lemma SerialCallsChain<V(!new)>(eq: (V, V) -> bool, run: seq<ConfigRounds.State<V>>, id: nat)
    requires IsRun(eq, run) && Registered(run, id) && !Overlaps(run) && AllIdle(run[|run| - 1])
    ensures Chain(eq, Heard(id, run[|run| - 1].log), run[0].val, run[|run| - 1].val)
  {
    SerialRun(eq, run, id, |run| - 1);
  }

  // ---- An overlap breaks it for good ------------------------------------------------------------------------

  /** Two consecutive pairs do not fit together. */
  ghost predicate Broken<V>(pairs: seq<(V, V)>) {
    exists i: nat :: i + 1 < |pairs| && pairs[i].1 != pairs[i + 1].0
  }

  lemma {:induction false} BrokenIsNoChain<V>(eq: (V, V) -> bool, pairs: seq<(V, V)>, first: V, last: V)
    requires Broken(pairs)
    ensures !Chain(eq, pairs, first, last)
  {
    var i: nat :| i + 1 < |pairs| && pairs[i].1 != pairs[i + 1].0;
    if i > 0 {
      assert pairs[1..][i - 1] == pairs[i] && pairs[1..][i] == pairs[i + 1];
      BrokenIsNoChain(eq, pairs[1..], pairs[0].1, last);
    }
  }

  /**
   The rounds of `a` and `b` are both open. Since position `m` the listener has heard only changes away from the
   current value, among them those of the two rounds that have told it already.
   */
  ghost predicate Doubled<V>(s: ConfigRounds.State<V>, id: nat, a: nat, b: nat, m: nat) {
    var pairs := Heard(id, s.log);
    && a != b && Open(s, a) && Open(s, b)
    && m + One(Told(s, a, id)) + One(Told(s, b, id)) <= |pairs|
    && forall i :: m <= i < |pairs| ==> pairs[i].0 == s.val && pairs[i].1 != s.val
  }

  lemma DoubledNotify<V(!new)>(eq: (V, V) -> bool, s: ConfigRounds.State<V>, t: nat, id: nat, a: nat, b: nat, m: nat)
    requires Reflexive(eq) && Inv(eq, s) && Once(s.cbs, id) && Doubled(s, id, a, b, m) && Can(s, Step.Notify(t))
    ensures Doubled(Called(s, t), id, a, b, m)
  {
    HeardStep(eq, s, Step.Notify(t), id);
    NotifyFresh(eq, s, t, id);
    ToldStep(eq, s, Step.Notify(t), id, a);
    ToldStep(eq, s, Step.Notify(t), id, b);
  }

  /** A write closes a round only after both rounds have told the listener. */
  lemma DoubledWrite<V>(eq: (V, V) -> bool, s: ConfigRounds.State<V>, t: nat, id: nat, a: nat, b: nat, m: nat)
    requires Doubled(s, id, a, b, m) && Can(s, Step.Write(t))
    ensures Broken(Heard(id, s.log))
  {
    assert Told(s, a, id) && Told(s, b, id);
    var pairs := Heard(id, s.log);
    assert pairs[m].1 != s.val == pairs[m + 1].0;
  }

  lemma DoubledStep<V(!new)>(eq: (V, V) -> bool, s: ConfigRounds.State<V>, step: Step<V>, id: nat,
                             a: nat, b: nat, m: nat)
    requires Reflexive(eq) && Inv(eq, s) && Once(s.cbs, id) && Can(s, step) && Doubled(s, id, a, b, m)
    ensures Doomed(ConfigRounds.Apply(eq, s, step), id, a, b, m)
  {
    HeardStep(eq, s, step, id);
    if step.Notify? {
      DoubledNotify(eq, s, step.t, id, a, b, m);
    } else if step.Write? {
      DoubledWrite(eq, s, step.t, id, a, b, m);
    } else {
      ToldStep(eq, s, step, id, a);
      ToldStep(eq, s, step, id, b);
    }
  }

  lemma BrokenStep<V>(eq: (V, V) -> bool, s: ConfigRounds.State<V>, step: Step<V>, id: nat)
    requires Can(s, step) && Broken(Heard(id, s.log))
    ensures Broken(Heard(id, ConfigRounds.Apply(eq, s, step).log))
  {
    HeardStep(eq, s, step, id);
    var pairs, pairs' := Heard(id, s.log), Heard(id, ConfigRounds.Apply(eq, s, step).log);
    var i: nat :| i + 1 < |pairs| && pairs[i].1 != pairs[i + 1].0;
    assert pairs'[i] == pairs[i] && pairs'[i + 1] == pairs[i + 1];
  }

  /** The first overlap: one round was open, and a second one starts from the same value. */
  lemma OverlapDoubles<V(!new)>(eq: (V, V) -> bool, s: ConfigRounds.State<V>, b: nat, v: V, id: nat, first: V)
    returns (a: nat, m: nat)
    requires Reflexive(eq) && Serial(s) && ChainSoFar(eq, s, id, first) && !AllIdle(s)
    requires Can(s, Compare(b, v)) && !eq(s.val, v)
    ensures Doubled(ConfigRounds.Apply(eq, s, Compare(b, v)), id, a, b, m)
  {
    var s' := ConfigRounds.Apply(eq, s, Compare(b, v));
    a :| a < |s.threads| && !s.threads[a].Idle?;
    assert Open(s, a);
    assert s'.threads[a] == s.threads[a] && Told(s', a, id) == Told(s, a, id) && !Told(s', b, id);
    m := |Heard(id, s.log)| - One(Told(s, a, id));
  }

  /** The chain is broken, or will be by the first write. */
  ghost predicate Doomed<V>(s: ConfigRounds.State<V>, id: nat, a: nat, b: nat, m: nat) {
    Doubled(s, id, a, b, m) || Broken(Heard(id, s.log))
  }

  lemma DoomedNext<V(!new)>(eq: (V, V) -> bool, run: seq<ConfigRounds.State<V>>, id: nat,
                            a: nat, b: nat, m: nat, k: nat)
    requires IsRun(eq, run) && Registered(run, id) && Reflexive(eq) && k + 1 < |run| && Doomed(run[k], id, a, b, m)
    ensures Doomed(run[k + 1], id, a, b, m)
  {
    var step := StepOf(eq, run, k);
    if Doubled(run[k], id, a, b, m) {
      RunInv(eq, run, k);
      DoubledStep(eq, run[k], step, id, a, b, m);
    } else {
      BrokenStep(eq, run[k], step, id);
    }
  }

  lemma {:induction false} DoomedRun<V(!new)>(eq: (V, V) -> bool, run: seq<ConfigRounds.State<V>>, id: nat,
                                              a: nat, b: nat, m: nat, j: nat, k: nat)
    requires IsRun(eq, run) && Registered(run, id) && Reflexive(eq) && j <= k < |run| && Doomed(run[j], id, a, b, m)
    ensures Doomed(run[k], id, a, b, m)
  {
    if j < k {
      DoomedRun(eq, run, id, a, b, m, j, k - 1);
      DoomedNext(eq, run, id, a, b, m, k - 1);
    }
  }

  /** The first overlap of a run. */
  lemma {:induction false} FirstOverlap<V>(run: seq<ConfigRounds.State<V>>, k: nat) returns (j: nat)
    requires k + 1 < |run| && OverlapAt(run, k)
    ensures j <= k && OverlapAt(run, j) && forall i: nat :: i < j ==> !OverlapAt(run, i)
  {
    if i: nat :| i < k && OverlapAt(run, i) {
      j := FirstOverlap(run, i);
    } else {
      j := k;
    }
  }

  lemma OverlapBreaks<V(!new)>(eq: (V, V) -> bool, run: seq<ConfigRounds.State<V>>, id: nat)
    requires IsRun(eq, run) && Registered(run, id) && Reflexive(eq) && Overlaps(run) && AllIdle(run[|run| - 1])
    ensures Broken(Heard(id, run[|run| - 1].log))
  {
    var k: nat :| k + 1 < |run| && OverlapAt(run, k);
    var j := FirstOverlap(run, k);
    SerialRun(eq, run, id, j);
    var step := StepOf(eq, run, j);
    var a, m := OverlapDoubles(eq, run[j], step.t, step.v, id, run[0].val);
    DoomedRun(eq, run, id, a, step.t, m, j + 1, |run| - 1);
  }

  /**
   In a run at whose end every call has returned, a listener that was registered throughout has heard an unbroken
   chain from the first value to the last exactly if no round began while another was open.
   */
  lemma ChainIffSerial<V(!new)>(eq: (V, V) -> bool, run: seq<ConfigRounds.State<V>>, id: nat)
    requires IsRun(eq, run) && Registered(run, id) && Reflexive(eq) && AllIdle(run[|run| - 1])
    ensures Chain(eq, Heard(id, run[|run| - 1].log), run[0].val, run[|run| - 1].val) <==> !Overlaps(run)
  {
    if Overlaps(run) {
      OverlapBreaks(eq, run, id);
      BrokenIsNoChain(eq, Heard(id, run[|run| - 1].log), run[0].val, run[|run| - 1].val);
    } else {
      SerialCallsChain(eq, run, id);
    }
  }
}
