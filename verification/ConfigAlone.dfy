/**
 The interleaved model of `ConfigRounds` agrees with the sequential one of `ConfigVars`: a `setValue` that nobody
 disturbs, and each change of the listeners, does what the sequential operation does.
 */
module ConfigAlone {
  import opened ConfigRounds
  import ConfigVars

  /** What the sequential model has of a state. */
  function View<V>(s: State<V>): ConfigVars.VarState<V> { ConfigVars.VarState(s.val, s.cbs, s.log) }

  /** No listener throws here. */
  function Quiet<V>(eq: (V, V) -> bool): ConfigVars.Kind<V> { ConfigVars.Kind(eq, (id: nat, x: V, y: V) => false) }

  ghost predicate Steps<V(!new)>(eq: (V, V) -> bool, run: seq<State<V>>, s: State<V>, s': State<V>) {
    && run != [] && run[0] == s && run[|run| - 1] == s'
    && forall k :: 0 <= k < |run| - 1 ==> StepAt(eq, run, k)
  }

  lemma OneMore<V(!new)>(eq: (V, V) -> bool, run: seq<State<V>>, s: State<V>, s': State<V>, step: Step<V>)
    returns (longer: seq<State<V>>)
    requires Steps(eq, run, s, s') && Can(s', step)
    ensures Steps(eq, longer, s, Apply(eq, s', step))
  {
    longer := run + [Apply(eq, s', step)];
    forall k | 0 <= k < |longer| - 1 ensures StepAt(eq, longer, k) {
      if k < |run| - 1 {
        assert StepAt(eq, run, k);
      } else {
        assert Leads(eq, s', Apply(eq, s', step));
      }
    }
  }

  /** The thread is in the middle of its round, with `n` listeners called. */
  ghost predicate Midway<V>(s: State<V>, t: nat, v: V, n: nat) {
    t < |s.threads| && s.threads[t].Notifying? && s.threads[t].v == v && s.threads[t].next == n <= |s.cbs|
    && s.threads[t].r < |s.rounds|
  }

  lemma NotifyOne<V>(eq: (V, V) -> bool, s: State<V>, t: nat, v: V, n: nat)
    requires Midway(s, t, v, n) && n < |s.cbs|
    ensures Can(s, Step.Notify(t))
    ensures var s' := Apply(eq, s, Step.Notify(t));
      && Midway(s', t, v, n + 1) && s'.val == s.val && s'.cbs == s.cbs
      && (forall u :: 0 <= u < |s.threads| && u != t ==> s'.threads[u] == s.threads[u])
      && |s'.threads| == |s.threads| && s'.log == s.log + [ConfigVars.Call(s.cbs[n], s.val, v)]
  {
  }

  /** The rest of the round calls the rest of the listeners. */
  lemma {:induction false} NotifyRest<V(!new)>(eq: (V, V) -> bool, run: seq<State<V>>, s: State<V>, s1: State<V>,
                                               t: nat, v: V, n: nat)
    returns (longer: seq<State<V>>, s2: State<V>)
    requires Steps(eq, run, s, s1) && Midway(s1, t, v, n)
    ensures Steps(eq, longer, s, s2) && Midway(s2, t, v, |s1.cbs|) && s2.val == s1.val && s2.cbs == s1.cbs
    ensures |s2.threads| == |s1.threads|
    ensures forall u :: 0 <= u < |s1.threads| && u != t ==> s2.threads[u] == s1.threads[u]
    ensures s2.log == s1.log + ConfigVars.Round(s1.cbs[n..], s1.val, v)
    decreases |s1.cbs| - n
  {
    longer, s2 := run, s1;
    if n < |s1.cbs| {
      NotifyOne(eq, s1, t, v, n);
      var next := Apply(eq, s1, Step.Notify(t));
      longer := OneMore(eq, run, s, s1, Step.Notify(t));
      longer, s2 := NotifyRest(eq, longer, s, next, t, v, n + 1);
      RoundCons(s1.cbs, n, s1.val, v);
      assert s1.log + ([ConfigVars.Call(s1.cbs[n], s1.val, v)] + ConfigVars.Round(s1.cbs[n + 1..], s1.val, v))
          == s1.log + [ConfigVars.Call(s1.cbs[n], s1.val, v)] + ConfigVars.Round(s1.cbs[n + 1..], s1.val, v);
    } else {
      assert s1.cbs[n..] == [];
    }
  }

  lemma RoundCons<V>(cbs: seq<nat>, n: nat, x: V, y: V)
    requires n < |cbs|
    ensures ConfigVars.Round(cbs[n..], x, y) == [ConfigVars.Call(cbs[n], x, y)] + ConfigVars.Round(cbs[n + 1..], x, y)
  {
    assert cbs[n..][1..] == cbs[n + 1..];
  }

  lemma {:induction false} AllHear<V>(eq: (V, V) -> bool, cbs: seq<nat>, x: V, y: V)
    ensures !ConfigVars.Fails(Quiet(eq).throws, cbs, x, y) && ConfigVars.Audience(Quiet(eq).throws, cbs, x, y) == cbs
  {
    if cbs != [] {
      AllHear(eq, cbs[1..], x, y);
    }
  }

  /** The end of a `setValue` of a value that differs, when no other thread is reading. */
  lemma Finish<V(!new)>(eq: (V, V) -> bool, run: seq<State<V>>, s: State<V>, s1: State<V>, t: nat, v: V)
    returns (longer: seq<State<V>>, s2: State<V>)
    requires Steps(eq, run, s, s1) && Midway(s1, t, v, |s1.cbs|)
    requires forall u :: 0 <= u < |s1.threads| && u != t ==> !s1.threads[u].Notifying?
    ensures Steps(eq, longer, s, s2) && View(s2) == View(s1).(val := v)
    ensures s2.threads == s1.threads[t := Idle]
  {
    longer := OneMore(eq, run, s, s1, EndRead(t));
    s2 := Apply(eq, s1, EndRead(t));
    assert NoReader(s2);
    longer := OneMore(eq, longer, s, s2, Write(t));
    s2 := Apply(eq, s2, Write(t));
  }

  /**
   A thread that is idle, while no other thread is reading, can carry out a whole `setValue` by steps of its own;
   its effect is that of the sequential operation.
   */
  lemma AloneAsSequential<V(!new)>(eq: (V, V) -> bool, s: State<V>, t: nat, v: V)
    returns (run: seq<State<V>>, s': State<V>)
    requires NoReader(s) && t < |s.threads| && s.threads[t].Idle?
    ensures Steps(eq, run, s, s') && s'.threads == s.threads
    ensures View(s') == ConfigVars.Apply(Quiet(eq), View(s), ConfigVars.Op.SetValue(v))
  {
    run, s' := [s], s;
    run := OneMore(eq, run, s, s, Compare(t, v));
    s' := Apply(eq, s, Compare(t, v));
    if !eq(s.val, v) {
      run, s' := NotifyRest(eq, run, s, s', t, v, 0);
      assert s.cbs[0..] == s.cbs;
      run, s' := Finish(eq, run, s, s', t, v);
      AllHear(eq, s.cbs, s.val, v);
    }
  }

  /** Adding and removing listeners is the same in both models. */
  lemma ListenersAsSequential<V>(eq: (V, V) -> bool, s: State<V>, id: nat)
    requires NoReader(s)
    ensures View(Apply(eq, s, Add(id))) == ConfigVars.Apply(Quiet(eq), View(s), ConfigVars.Op.AddListener(id))
    ensures View(Apply(eq, s, Delete(id))) == ConfigVars.Apply(Quiet(eq), View(s), ConfigVars.Op.DelListener(id))
    ensures View(Apply(eq, s, Clear)) == ConfigVars.Apply(Quiet(eq), View(s), ConfigVars.Op.ClearListener)
  {
  }
}
