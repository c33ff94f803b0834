/** Two concrete runs: why the queueing discipline is needed, and how early stopping() can become true. */
module WorkerScenarios {
  import opened Options
  import opened FiberStates
  import opened WorkerSteps

  /** A run of the program text in which no assertion fails, with or without the discipline. */
  predicate IsRawRun(tr: seq<System>, acts: seq<Action>) {
    && |tr| == |acts| + 1 && Init(tr[0])
    && forall k :: 0 <= k < |acts| ==>
         CanStep(tr[k], acts[k]) && AssertionsHold(tr[k], acts[k]) && tr[k + 1] == Apply(tr[k], acts[k])
  }

  lemma ExtendRaw(tr: seq<System>, acts: seq<Action>, a: Action)
    requires IsRawRun(tr, acts) && CanStep(tr[|acts|], a) && AssertionsHold(tr[|acts|], a)
    ensures IsRawRun(tr + [Apply(tr[|acts|], a)], acts + [a])
  {
  }

  lemma ExtendRun(tr: seq<System>, acts: seq<Action>, a: Action)
    requires IsRun(tr, acts) && CanStep(tr[|acts|], a) && Disciplined(tr[|acts|], a)
    ensures IsRun(tr + [Apply(tr[|acts|], a)], acts + [a])
  {
    var tr', acts' := tr + [Apply(tr[|acts|], a)], acts + [a];
    forall k | 0 <= k < |acts'| ensures StepAt(tr', acts', k) {
      if k < |acts| {
        assert StepAt(tr, acts, k);
      }
    }
  }

  lemma Extend(tr: seq<System>, acts: seq<Action>, a: Action) returns (tr': seq<System>, acts': seq<Action>)
    requires IsRawRun(tr, acts) && CanStep(tr[|acts|], a) && AssertionsHold(tr[|acts|], a)
    ensures IsRawRun(tr', acts') && |acts'| == |acts| + 1
    ensures tr'[|acts'|] == Apply(tr[|acts|], a)
    ensures IsRun(tr, acts) && Disciplined(tr[|acts|], a) ==> IsRun(tr', acts')
  {
    tr', acts' := tr + [Apply(tr[|acts|], a)], acts + [a];
    ExtendRaw(tr, acts, a);
    if IsRun(tr, acts) && Disciplined(tr[|acts|], a) {
      ExtendRun(tr, acts, a);
    }
  }

  /** Two workers and one fiber, while start() has been called and stop() has not. */
  function Two(q: seq<Entry>, st: State, pc0: Pc, pc1: Pc, lock: Option<WorkerId>, active: int): System {
    System(q, [Fiber(st, Some(7), false, st != INIT, true, None)], [Worker(pc0, None, INIT), Worker(pc1, None, INIT)],
           lock, active, 0, false, false, Started, false, multiset{7}, if st == INIT then multiset{} else multiset{7})
  }

  const SELF := Entry(FiberTask(0), -1)

  lemma Started2() returns (tr: seq<System>, acts: seq<Action>)
    ensures IsRun(tr, acts) && IsRawRun(tr, acts) && tr[|acts|] == Two([SELF], INIT, Top, Top, None, 0)
  {
    var w := Worker(NotStarted, None, INIT);
    tr, acts := [System([], [], [w, w], None, 0, 0, true, false, Setup, false, multiset{}, multiset{})], [];
    tr, acts := Extend(tr, acts, User(NewFiber(7)));
    tr, acts := Extend(tr, acts, User(Push(None, SELF)));
    tr, acts := Extend(tr, acts, Main(Start));
  }

  lemma Taken2() returns (tr: seq<System>, acts: seq<Action>)
    ensures IsRun(tr, acts) && IsRawRun(tr, acts)
    ensures tr[|acts|] == Two([], INIT, Handling(0, Taken, false), Top, None, 1)
  {
    tr, acts := Started2();
    tr, acts := Extend(tr, acts, Scan(0, Lock));
    tr, acts := Extend(tr, acts, Scan(0, Pick));
    assert [SELF][..0] + [SELF][0 + 1..] == [];
  }

  /** Worker 0 is running the fiber. */
  lemma Running2() returns (tr: seq<System>, acts: seq<Action>)
    ensures IsRun(tr, acts) && IsRawRun(tr, acts)
    ensures tr[|acts|] == Two([], EXEC, Handling(0, Running, false), Top, None, 1)
  {
    tr, acts := Taken2();
    tr, acts := Extend(tr, acts, Run(0, Check));
    tr, acts := Extend(tr, acts, Run(0, Enter));
  }

  /** The fiber has queued itself, which is disciplined, and then yields to ready, which is not. */
  lemma YieldedWhileQueued() returns (tr: seq<System>, acts: seq<Action>)
    ensures IsRawRun(tr, acts) && tr[|acts|] == Two([SELF], READY, Handling(0, Leaving, false), Top, None, 1)
  {
    tr, acts := Running2();
    tr, acts := Extend(tr, acts, User(Push(Some(0), SELF)));
    tr, acts := Extend(tr, acts, Run(0, Leave(YieldToReady)));
  }

  lemma TakenTwice() returns (tr: seq<System>, acts: seq<Action>)
    ensures IsRawRun(tr, acts)
    ensures tr[|acts|] == Two([], READY, Handling(0, Leaving, false), Handling(0, Taken, false), None, 2)
  {
    tr, acts := YieldedWhileQueued();
    tr, acts := Extend(tr, acts, Scan(1, Lock));
    tr, acts := Extend(tr, acts, Scan(1, Pick));
    assert [SELF][..0] + [SELF][0 + 1..] == [];
  }

  /** Without the discipline two workers execute on one fiber's stack, and no assertion has failed. */
  lemma TwoRunnersWithoutDiscipline() returns (tr: seq<System>, acts: seq<Action>)
    ensures IsRawRun(tr, acts) && |tr[|acts|].workers| == 2
    ensures Executing(tr[|acts|].workers[0], 0) && Executing(tr[|acts|].workers[1], 0)
  {
    tr, acts := TakenTwice();
    tr, acts := Extend(tr, acts, Run(1, Check));
    tr, acts := Extend(tr, acts, Run(1, Enter));
  }

  /** The fiber has yielded to ready. */
  lemma YieldedToReady() returns (tr: seq<System>, acts: seq<Action>)
    ensures IsRun(tr, acts) && IsRawRun(tr, acts)
    ensures tr[|acts|] == Two([], READY, Handling(0, Leaving, false), Top, None, 1)
  {
    tr, acts := Running2();
    tr, acts := Extend(tr, acts, Run(0, Leave(YieldToReady)));
  }

  /** Its worker has decremented. */
  lemma CountedReady() returns (tr: seq<System>, acts: seq<Action>)
    ensures IsRun(tr, acts) && IsRawRun(tr, acts)
    ensures tr[|acts|] == Two([], READY, Handling(0, Counted, false), Top, None, 0)
  {
    tr, acts := YieldedToReady();
    tr, acts := Extend(tr, acts, Run(0, SwapBack));
    tr, acts := Extend(tr, acts, Settle(0, Decrement));
  }

  /** In a disciplined run stopping() can be true while a READY fiber waits in a worker's hand. */
  lemma StoppingWithReadyFiber() returns (tr: seq<System>, acts: seq<Action>)
    ensures IsRun(tr, acts)
    ensures StoppingNow(tr[|acts|]) && |tr[|acts|].fibers| == 1 && tr[|acts|].fibers[0].state == READY
    ensures !Queued(tr[|acts|], 0)
  {
    tr, acts := CountedReady();
    tr, acts := Extend(tr, acts, Main(SetAutoStop));
    tr, acts := Extend(tr, acts, Main(SetStopping));
  }
}
