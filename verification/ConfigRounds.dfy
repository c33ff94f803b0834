/**
 `ConfigVar::setValue` under concurrency (src/config/config.h:282-317): each thread compares and notifies under
 the read lock, then takes the write lock to store the value. Readers run side by side; a section under the write
 lock is one step, enabled when no thread holds the read lock.
 */
module ConfigRounds {
  import ConfigVars

  /** What a thread is doing: notifying the listeners for round `r`, or done with that and about to write. */
  datatype Phase<V> = Idle | Notifying(v: V, next: nat, r: nat) | Announced(v: V, r: nat)

  /**
   One round of notifications: the value compared with, the new value, the listeners registered when it began,
   and the calls made: whom, and with which old value.
   */
  datatype Round<V> = Round(oldValue: V, newValue: V, ids: seq<nat>, calls: seq<(nat, V)>)

  /**
   `writes` holds the written values with the round of the writing thread, `log` all calls of listeners in the
   order in which they are made.
   */
  datatype State<V> = State(
    val: V, cbs: seq<nat>, threads: seq<Phase<V>>, rounds: seq<Round<V>>, writes: seq<(V, nat)>,
    log: seq<ConfigVars.Call<V>>)

  datatype Step<V> =
    | Compare(t: nat, v: V) | Notify(t: nat) | EndRead(t: nat) | Write(t: nat)
    | Add(id: nat) | Delete(id: nat) | Clear

  ghost predicate NoReader<V>(s: State<V>) { forall t :: 0 <= t < |s.threads| ==> !s.threads[t].Notifying? }

  ghost predicate Can<V>(s: State<V>, step: Step<V>) {
    match step
    case Compare(t, v) => t < |s.threads| && s.threads[t].Idle?
    case Notify(t) => t < |s.threads| && s.threads[t].Notifying? && s.threads[t].next < |s.cbs|
                      && s.threads[t].r < |s.rounds|
    case EndRead(t) => t < |s.threads| && s.threads[t].Notifying? && s.threads[t].next >= |s.cbs|
    case Write(t) => t < |s.threads| && s.threads[t].Announced? && NoReader(s)
    case Add(id) => NoReader(s)
    case Delete(id) => NoReader(s)
    case Clear => NoReader(s)
  }

  function Called<V>(s: State<V>, t: nat): State<V>
    requires Can(s, Step.Notify(t))
  {
    var Notifying(v, k, r) := s.threads[t];
    var round := s.rounds[r];
    s.(threads := s.threads[t := Notifying(v, k + 1, r)],
       rounds := s.rounds[r := round.(calls := round.calls + [(s.cbs[k], s.val)])],
       log := s.log + [ConfigVars.Call(s.cbs[k], s.val, v)])
  }

  ghost function Apply<V>(eq: (V, V) -> bool, s: State<V>, step: Step<V>): State<V>
    requires Can(s, step)
  {
    match step
    case Compare(t, v) =>
      if eq(s.val, v) then s
      else s.(threads := s.threads[t := Notifying(v, 0, |s.rounds|)],
              rounds := s.rounds + [Round(s.val, v, s.cbs, [])])
    case Notify(t) => Called(s, t)
    case EndRead(t) => s.(threads := s.threads[t := Announced(s.threads[t].v, s.threads[t].r)])
    case Write(t) =>
      s.(val := s.threads[t].v, threads := s.threads[t := Idle],
         writes := s.writes + [(s.threads[t].v, s.threads[t].r)])
    case Add(id) => s.(cbs := s.cbs + [id])
    case Delete(id) => s.(cbs := ConfigVars.Without(s.cbs, id))
    case Clear => s.(cbs := [])
  }

  ghost predicate Init<V>(s: State<V>) {
    s.rounds == [] && s.writes == [] && s.log == [] && forall t :: 0 <= t < |s.threads| ==> s.threads[t].Idle?
  }

  ghost predicate Leads<V(!new)>(eq: (V, V) -> bool, s: State<V>, s': State<V>) {
    exists step :: Can(s, step) && s' == Apply(eq, s, step)
  }

  ghost predicate StepAt<V(!new)>(eq: (V, V) -> bool, run: seq<State<V>>, k: nat)
    requires k + 1 < |run|
  {
    Leads(eq, run[k], run[k + 1])
  }

  ghost predicate IsRun<V(!new)>(eq: (V, V) -> bool, run: seq<State<V>>) {
    run != [] && Init(run[0]) && forall k :: 0 <= k < |run| - 1 ==> StepAt(eq, run, k)
  }

  // ---- The invariant --------------------------------------------------------------------------------------

  /** The calls of a whole round to the listeners `ids`. */
  function Calls<V>(ids: seq<nat>, oldValue: V): seq<(nat, V)> {
    seq(|ids|, k requires 0 <= k < |ids| => (ids[k], oldValue))
  }

  /** The round has called the first `n` of its listeners, all with its old value. */
  predicate Reached<V(==)>(round: Round<V>, n: nat) {
    n <= |round.ids| && round.calls == Calls(round.ids[..n], round.oldValue)
  }

  /** While a thread notifies, its round's old value and listeners are the current ones. */
  predicate PhaseOk<V(==)>(s: State<V>, p: Phase<V>) {
    match p
    case Idle => true
    case Notifying(v, n, r) =>
      && r < |s.rounds| && s.rounds[r].newValue == v && s.rounds[r].oldValue == s.val && s.rounds[r].ids == s.cbs
      && Reached(s.rounds[r], n)
    case Announced(v, r) => r < |s.rounds| && s.rounds[r].newValue == v && Finished(s, r)
  }

  predicate Finished<V(==)>(s: State<V>, r: nat)
    requires r < |s.rounds|
  {
    Reached(s.rounds[r], |s.rounds[r].ids|)
  }

  ghost predicate InRound<V>(p: Phase<V>, r: nat) { !p.Idle? && p.r == r }

  ghost predicate Inv<V>(eq: (V, V) -> bool, s: State<V>) {
    && (forall t :: 0 <= t < |s.threads| ==> PhaseOk(s, s.threads[t]))
    && (forall t, u, r :: 0 <= t < u < |s.threads| && InRound(s.threads[t], r) ==> !InRound(s.threads[u], r))
    && (forall r :: 0 <= r < |s.rounds| ==> RoundOk(eq, s, r))
    && (forall w :: 0 <= w < |s.writes| ==> WriteOk(s, s.writes[w]))
    && (s.writes != [] ==> s.writes[|s.writes| - 1].0 == s.val)
  }

  /** A round is finished, or a thread is still notifying for it. */
  ghost predicate RoundOk<V>(eq: (V, V) -> bool, s: State<V>, r: nat)
    requires r < |s.rounds|
  {
    && !eq(s.rounds[r].oldValue, s.rounds[r].newValue)
    && (Finished(s, r) || exists t :: 0 <= t < |s.threads| && s.threads[t].Notifying? && InRound(s.threads[t], r))
  }

  ghost predicate WriteOk<V>(s: State<V>, write: (V, nat)) {
    && write.1 < |s.rounds| && s.rounds[write.1].newValue == write.0 && Finished(s, write.1)
    && forall t :: 0 <= t < |s.threads| ==> !InRound(s.threads[t], write.1)
  }

  lemma CallsNext<V>(ids: seq<nat>, oldValue: V, n: nat)
    requires n < |ids|
    ensures Calls(ids[..n + 1], oldValue) == Calls(ids[..n], oldValue) + [(ids[n], oldValue)]
  {
  }

  lemma CompareKeeps<V>(eq: (V, V) -> bool, s: State<V>, t: nat, v: V)
    requires Inv(eq, s) && Can(s, Compare(t, v))
    ensures Inv(eq, Apply(eq, s, Compare(t, v)))
  {
    if !eq(s.val, v) {
      var s' := Apply(eq, s, Compare(t, v));
      assert s'.rounds[|s.rounds|].calls == Calls(s.cbs[..0], s.val);
      assert InRound(s'.threads[t], |s.rounds|);
      forall r | 0 <= r < |s.rounds| ensures RoundOk(eq, s', r) {
        assert RoundOk(eq, s, r);
        if !Finished(s, r) {
          var u :| 0 <= u < |s.threads| && s.threads[u].Notifying? && InRound(s.threads[u], r);
          assert s'.threads[u] == s.threads[u];
        }
      }
      forall u | 0 <= u < |s'.threads| ensures PhaseOk(s', s'.threads[u]) {
        assert PhaseOk(s, s.threads[u]);
      }
      forall w | 0 <= w < |s'.writes| ensures WriteOk(s', s'.writes[w]) {
        assert WriteOk(s, s.writes[w]);
      }
    }
  }

  lemma NotifyKeeps<V>(eq: (V, V) -> bool, s: State<V>, t: nat)
    requires Inv(eq, s) && Can(s, Step.Notify(t))
    ensures Inv(eq, Called(s, t))
  {
    var s' := Called(s, t);
    var Notifying(v, n, r) := s.threads[t];
    assert PhaseOk(s, s.threads[t]) && InRound(s.threads[t], r) && InRound(s'.threads[t], r);
    CallsNext(s.cbs, s.val, n);
    assert forall u :: 0 <= u < |s.threads| && u != t ==> !InRound(s.threads[u], r);
    forall u | 0 <= u < |s'.threads| ensures PhaseOk(s', s'.threads[u]) {
      assert PhaseOk(s, s.threads[u]);
    }
    forall q | 0 <= q < |s'.rounds| ensures RoundOk(eq, s', q) {
      assert RoundOk(eq, s, q);
      if q != r && !Finished(s, q) {
        var u :| 0 <= u < |s.threads| && s.threads[u].Notifying? && InRound(s.threads[u], q);
        assert s'.threads[u] == s.threads[u];
      }
    }
    forall w | 0 <= w < |s'.writes| ensures WriteOk(s', s'.writes[w]) {
      assert WriteOk(s, s.writes[w]);
    }
  }

  lemma EndReadKeeps<V>(eq: (V, V) -> bool, s: State<V>, t: nat)
    requires Inv(eq, s) && Can(s, EndRead(t))
    ensures Inv(eq, Apply(eq, s, EndRead(t)))
  {
    var s' := Apply(eq, s, EndRead(t));
    assert PhaseOk(s, s.threads[t]);
    assert s.cbs[..|s.cbs|] == s.cbs;
    forall u | 0 <= u < |s'.threads| ensures PhaseOk(s', s'.threads[u]) {
      assert PhaseOk(s, s.threads[u]);
    }
    forall q | 0 <= q < |s'.rounds| ensures RoundOk(eq, s', q) {
      assert RoundOk(eq, s, q);
      if !Finished(s, q) {
        var u :| 0 <= u < |s.threads| && s.threads[u].Notifying? && InRound(s.threads[u], q);
        assert s'.threads[u] == s.threads[u];
      }
    }
    forall w | 0 <= w < |s'.writes| ensures WriteOk(s', s'.writes[w]) {
      assert WriteOk(s, s.writes[w]);
    }
  }

  lemma WriteKeeps<V>(eq: (V, V) -> bool, s: State<V>, t: nat)
    requires Inv(eq, s) && Can(s, Step.Write(t))
    ensures Inv(eq, Apply(eq, s, Step.Write(t)))
  {
    var s' := Apply(eq, s, Step.Write(t));
    assert PhaseOk(s, s.threads[t]) && InRound(s.threads[t], s.threads[t].r);
    forall u | 0 <= u < |s'.threads| ensures PhaseOk(s', s'.threads[u]) {
      assert PhaseOk(s, s.threads[u]);
    }
    forall q | 0 <= q < |s'.rounds| ensures RoundOk(eq, s', q) {
      assert RoundOk(eq, s, q);
    }
    forall w | 0 <= w < |s'.writes| ensures WriteOk(s', s'.writes[w]) {
      if w < |s.writes| {
        assert WriteOk(s, s.writes[w]);
      }
    }
  }

  lemma ListenersKeep<V>(eq: (V, V) -> bool, s: State<V>, cbs: seq<nat>)
    requires Inv(eq, s) && NoReader(s)
    ensures Inv(eq, s.(cbs := cbs))
  {
    var s' := s.(cbs := cbs);
    forall u | 0 <= u < |s'.threads| ensures PhaseOk(s', s'.threads[u]) {
      assert PhaseOk(s, s.threads[u]);
    }
    forall q | 0 <= q < |s'.rounds| ensures RoundOk(eq, s', q) {
      assert RoundOk(eq, s, q);
    }
    forall w | 0 <= w < |s'.writes| ensures WriteOk(s', s'.writes[w]) {
      assert WriteOk(s, s.writes[w]);
    }
  }

  lemma StepKeeps<V>(eq: (V, V) -> bool, s: State<V>, step: Step<V>)
    requires Inv(eq, s) && Can(s, step)
    ensures Inv(eq, Apply(eq, s, step))
  {
    match step
    case Compare(t, v) => CompareKeeps(eq, s, t, v);
    case Notify(t) => NotifyKeeps(eq, s, t);
    case EndRead(t) => EndReadKeeps(eq, s, t);
    case Write(t) => WriteKeeps(eq, s, t);
    case Add(id) => ListenersKeep(eq, s, s.cbs + [id]);
    case Delete(id) => ListenersKeep(eq, s, ConfigVars.Without(s.cbs, id));
    case Clear => ListenersKeep(eq, s, []);
  }

  lemma {:induction false} RunInv<V(!new)>(eq: (V, V) -> bool, run: seq<State<V>>, k: nat)
    requires IsRun(eq, run) && k < |run|
    ensures Inv(eq, run[k])
  {
    if k > 0 {
      RunInv(eq, run, k - 1);
      assert StepAt(eq, run, k - 1);
      var step :| Can(run[k - 1], step) && run[k] == Apply(eq, run[k - 1], step);
      StepKeeps(eq, run[k - 1], step);
    }
  }

  // ---- Main results ---------------------------------------------------------------------------------------

  /**
   In every reachable state each round has called a prefix of the listeners registered when it began, in order
   and all with one old value. Unless it has called all of them, that old value is still the current value and
   those listeners are still the registered ones.
   */
  lemma OneOldValuePerRound<V(!new)>(eq: (V, V) -> bool, run: seq<State<V>>, k: nat, r: nat)
    requires IsRun(eq, run) && k < |run| && r < |run[k].rounds|
    ensures var s := run[k]; var round := s.rounds[r];
      exists n: nat :: Reached(round, n) && (n < |round.ids| ==> round.oldValue == s.val && round.ids == s.cbs)
  {
    RunInv(eq, run, k);
    var s := run[k];
    assert RoundOk(eq, s, r);
    if Finished(s, r) {
      assert Reached(s.rounds[r], |s.rounds[r].ids|);
    } else {
      var t :| 0 <= t < |s.threads| && s.threads[t].Notifying? && InRound(s.threads[t], r);
      assert PhaseOk(s, s.threads[t]);
      assert Reached(s.rounds[r], s.threads[t].next);
    }
  }

  /** Every value that is written was announced first, to every listener registered when its round began. */
  lemma WrittenWasAnnounced<V(!new)>(eq: (V, V) -> bool, run: seq<State<V>>, k: nat, w: nat)
    requires IsRun(eq, run) && k < |run| && w < |run[k].writes|
    ensures var s := run[k]; var (v, r) := s.writes[w];
      r < |s.rounds| && s.rounds[r].newValue == v && s.rounds[r].calls == Calls(s.rounds[r].ids, s.rounds[r].oldValue)
    ensures w == |run[k].writes| - 1 ==> run[k].writes[w].0 == run[k].val
  {
    RunInv(eq, run, k);
    var s := run[k];
    assert WriteOk(s, s.writes[w]);
    var ids := s.rounds[s.writes[w].1].ids;
    assert ids[..|ids|] == ids;
  }

  // ---- A run with two rounds at once ------------------------------------------------------------------------

  predicate Same(x: int, y: int) { x == y }

  /**
   Two threads and one listener with id 7, while the value compared with is 0: how many rounds have started and
   how many of them have called the listener, in order.
   */
  function Scene(val: int, a: Phase<int>, b: Phase<int>, started: nat, told: nat, writes: seq<(int, nat)>): State<int> {
    State(val, [7], [a, b], seq(started, k => Round(0, k + 1, [7], if k < told then [(7, 0)] else [])), writes,
          seq(told, k => ConfigVars.Call(7, 0, k + 1)))
  }

  /** `run` is a run to the state `s`. */
  ghost predicate Reaches(run: seq<State<int>>, s: State<int>) {
    IsRun(Same, run) && run[0].val == 0 && run[|run| - 1] == s
  }

  lemma OneMoreStep(run: seq<State<int>>, s: State<int>, step: Step<int>) returns (longer: seq<State<int>>)
    requires Reaches(run, s) && Can(s, step)
    ensures Reaches(longer, Apply(Same, s, step))
  {
    longer := run + [Apply(Same, s, step)];
    forall k | 0 <= k < |longer| - 1 ensures StepAt(Same, longer, k) {
      assert k < |run| - 1 ==> StepAt(Same, run, k);
    }
  }

  lemma BothCompare() returns (run: seq<State<int>>)
    ensures Reaches(run, Scene(0, Notifying(1, 0, 0), Notifying(2, 0, 1), 2, 0, []))
  {
    var s := Scene(0, Idle, Idle, 0, 0, []);
    var s' := Scene(0, Notifying(1, 0, 0), Idle, 1, 0, []);
    run := OneMoreStep([s], s, Compare(0, 1));
    assert Apply(Same, s, Compare(0, 1)) == s';
    run := OneMoreStep(run, s', Compare(1, 2));
    assert Apply(Same, s', Compare(1, 2)) == Scene(0, Notifying(1, 0, 0), Notifying(2, 0, 1), 2, 0, []);
  }

  /** Round `t` calls the listener. */
  lemma SceneCalled(s: State<int>, s': State<int>, t: nat)
    requires t < |s.threads| == |s'.threads| && s.cbs == s'.cbs == [7] && s.val == s'.val == 0 && s.writes == s'.writes
    requires t < |s.rounds| == |s'.rounds| && s.threads[t] == Notifying(t + 1, 0, t)
    requires s.rounds[t] == Round(0, t + 1, [7], []) && s'.rounds[t] == Round(0, t + 1, [7], [(7, 0)])
    requires s'.threads[t] == Notifying(t + 1, 1, t) && s'.log == s.log + [ConfigVars.Call(7, 0, t + 1)]
    requires forall u :: 0 <= u < |s.threads| && u != t ==> s'.threads[u] == s.threads[u]
    requires forall r :: 0 <= r < |s.rounds| && r != t ==> s'.rounds[r] == s.rounds[r]
    ensures Apply(Same, s, Step.Notify(t)) == s'
  {
    assert [] + [(7 as nat, 0)] == [(7, 0)];
    assert s.threads[t := s'.threads[t]] == s'.threads && s.rounds[t := s'.rounds[t]] == s'.rounds;
  }

  lemma BothNotify() returns (run: seq<State<int>>)
    ensures Reaches(run, Scene(0, Notifying(1, 1, 0), Notifying(2, 1, 1), 2, 2, []))
  {
    run := BothCompare();
    var s := Scene(0, Notifying(1, 0, 0), Notifying(2, 0, 1), 2, 0, []);
    var s' := Scene(0, Notifying(1, 1, 0), Notifying(2, 0, 1), 2, 1, []);
    run := OneMoreStep(run, s, Step.Notify(0));
    SceneCalled(s, s', 0);
    run := OneMoreStep(run, s', Step.Notify(1));
    SceneCalled(s', Scene(0, Notifying(1, 1, 0), Notifying(2, 1, 1), 2, 2, []), 1);
  }

  lemma BothEndRead() returns (run: seq<State<int>>)
    ensures Reaches(run, Scene(0, Announced(1, 0), Announced(2, 1), 2, 2, []))
  {
    run := BothNotify();
    var s := Scene(0, Notifying(1, 1, 0), Notifying(2, 1, 1), 2, 2, []);
    var s' := Scene(0, Announced(1, 0), Notifying(2, 1, 1), 2, 2, []);
    run := OneMoreStep(run, s, EndRead(0));
    assert Apply(Same, s, EndRead(0)) == s';
    run := OneMoreStep(run, s', EndRead(1));
    assert Apply(Same, s', EndRead(1)) == Scene(0, Announced(1, 0), Announced(2, 1), 2, 2, []);
  }

  /**
   The chain of sequential runs can break: two threads may both announce a change from the same old value, and
   both be written. Here listener 7 is told 0 to 1 and 0 to 2, and the value ends as 1.
   */
  lemma ChainCanBreak() returns (run: seq<State<int>>)
    ensures IsRun(Same, run) && run[0].val == 0
    ensures var s := run[|run| - 1];
      s.threads == [Idle, Idle] && ConfigVars.Heard(7, s.log) == [(0, 1), (0, 2)] && s.val == 1
  {
    run := BothEndRead();
    var s := Scene(0, Announced(1, 0), Announced(2, 1), 2, 2, []);
    var s' := Scene(2, Announced(1, 0), Idle, 2, 2, [(2, 1)]);
    run := OneMoreStep(run, s, Step.Write(1));
    assert Apply(Same, s, Step.Write(1)) == s';
    run := OneMoreStep(run, s', Step.Write(0));
    var end := Scene(1, Idle, Idle, 2, 2, [(2, 1), (1, 0)]);
    assert Apply(Same, s', Step.Write(0)) == end;
    assert end.log == [ConfigVars.Call(7, 0, 1)] + [ConfigVars.Call(7, 0, 2)];
    ConfigVars.HeardConcat(7, [ConfigVars.Call(7, 0, 1)], [ConfigVars.Call(7, 0, 2)]);
  }
}
