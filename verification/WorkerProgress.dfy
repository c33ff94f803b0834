/** No worker gets stuck: what each one can do next (src/scheduler/scheduler.cpp:136-231). */
module WorkerProgress {
  import opened Options
  import opened FiberStates
  import opened Bags
  import opened WorkerInvariants
  import opened WorkerSteps
  import opened WorkerTheorems

  /** A step of the worker's own code; what its fiber's function does with the scheduler is left aside. */
  predicate OfWorker(a: Action, w: WorkerId) { !a.Main? && !a.User? && a.w == w }

  /** The worker is in its loop, and nobody else has the lock. */
  predicate Free(s: System, w: WorkerId) {
    && w < |s.workers| && !s.workers[w].pc.NotStarted? && !Done(s.workers[w])
    && (s.lock == None || s.lock == Some(w))
  }

  /** The entry is for any worker or for this one, and it is no fiber that executes. */
  predicate Eligible(s: System, w: WorkerId, e: Entry) {
    && (e.thread == -1 || e.thread == w)
    && (e.task.FiberTask? ==> e.task.f < |s.fibers| && s.fibers[e.task.f].state != EXEC)
  }

  /** The next step of a worker; a fiber's function may also leave in other ways than the one named here. */
  function NextOf(s: System, w: WorkerId): Action
    requires w < |s.workers|
  {
    match s.workers[w].pc
    case Top => Scan(w, Lock)
    case Scanning(i) =>
      if i >= |s.queue| then Scan(w, ScanEnd) else if Eligible(s, w, s.queue[i]) then Scan(w, Pick) else Scan(w, Skip)
    case GotCallback(_) => Run(w, Prepare)
    case Handling(_, phase, _) => NextIn(w, phase)
    case IdleEntering => Idle(w, IdleEnter)
    case IdleRunning => Idle(w, IdlePoll)
    case IdleReturned => Idle(w, IdleDecrement)
    case IdleParking => Idle(w, IdlePark)
    case _ => Idle(w, IdleStart)
  }

  function NextIn(w: WorkerId, phase: Phase): Action {
    match phase
    case Taken => Run(w, Check)
    case Entering => Run(w, Enter)
    case Running => Run(w, Leave(YieldToHold))
    case Leaving => Run(w, SwapBack)
    case Returned => Settle(w, Decrement)
    case Counted => Settle(w, Inspect)
    case Requeueing => Settle(w, Requeue)
    case Parking => Settle(w, Park)
    case Recycling => Settle(w, Recycle)
  }

  predicate LeavesSomehow(s: System, w: WorkerId, a: Action) {
    At(s, w, Running) && a.Run? && a.w == w && a.run.Leave?
  }

  lemma NextOfScan(s: System, w: WorkerId, op: ScanOp)
    requires Shape(s) && Free(s, w)
    ensures CanScan(s, w, op) <==> Scan(w, op) == NextOf(s, w)
  {
    assert WorkerFits(s, w, s.workers[w]);
  }

  lemma NextOfRun(s: System, w: WorkerId, op: RunOp)
    requires Shape(s) && Free(s, w)
    ensures CanRun(s, w, op) <==> Run(w, op) == NextOf(s, w) || LeavesSomehow(s, w, Run(w, op))
  {
    assert WorkerFits(s, w, s.workers[w]);
  }

  lemma NextOfSettle(s: System, w: WorkerId, op: SettleOp)
    requires Shape(s) && Free(s, w)
    ensures CanSettle(s, w, op) <==> Settle(w, op) == NextOf(s, w)
  {
    assert WorkerFits(s, w, s.workers[w]);
  }

  lemma NextOfIdle(s: System, w: WorkerId, op: IdleOp)
    requires Shape(s) && Free(s, w)
    ensures CanIdle(s, w, op) <==> Idle(w, op) == NextOf(s, w)
  {
    assert WorkerFits(s, w, s.workers[w]);
  }

  /**
   In every reachable state a worker that is in its loop, while nobody else has the lock, can take exactly one step,
   or, while a fiber's function executes, every way of leaving it; and one that the discipline allows.
   */
  lemma ExactlyOneNext(tr: seq<System>, acts: seq<Action>, k: nat, w: WorkerId, a: Action)
    requires IsRun(tr, acts) && k <= |acts| && Free(tr[k], w)
    ensures OfWorker(a, w) ==> (CanStep(tr[k], a) <==> a == NextOf(tr[k], w) || LeavesSomehow(tr[k], w, a))
    ensures CanStep(tr[k], NextOf(tr[k], w)) && Disciplined(tr[k], NextOf(tr[k], w))
  {
    RunInv(tr, acts, k);
    CanTake(tr[k], w);
    if OfWorker(a, w) {
      OnlyNext(tr[k], w, a);
    }
  }

  lemma OnlyNext(s: System, w: WorkerId, a: Action)
    requires Shape(s) && Free(s, w) && OfWorker(a, w)
    ensures CanStep(s, a) <==> a == NextOf(s, w) || LeavesSomehow(s, w, a)
  {
    match a
    case Scan(v, op) => NextOfScan(s, w, op);
    case Run(v, op) => NextOfRun(s, w, op);
    case Settle(v, op) => NextOfSettle(s, w, op);
    case Idle(v, op) => NextOfIdle(s, w, op);
  }

  lemma CanTake(s: System, w: WorkerId)
    requires Shape(s) && Free(s, w)
    ensures CanStep(s, NextOf(s, w)) && Disciplined(s, NextOf(s, w))
  {
    OnlyNext(s, w, NextOf(s, w));
  }

  /** Whoever has the lock is one of the workers in their loop, so the lock is given back. */
  lemma HolderIsFree(tr: seq<System>, acts: seq<Action>, k: nat)
    requires IsRun(tr, acts) && k <= |acts| && tr[k].lock.Some?
    ensures Free(tr[k], tr[k].lock.value)
  {
    RunInv(tr, acts, k);
  }

  /** What a fiber's function may do while nobody has the lock: schedule callbacks and itself, switch, make fibers. */
  lemma FunctionsMaySchedule(tr: seq<System>, acts: seq<Action>, k: nat, w: WorkerId, c: Id, t: int)
    requires IsRun(tr, acts) && k <= |acts| && At(tr[k], w, Running) && tr[k].lock == None && -1 <= t
    ensures var s, f := tr[k], tr[k].workers[w].pc.f;
      && CanUser(s, Push(Some(w), Entry(CallbackTask(c), t)))
      && DisciplinedUser(s, Push(Some(w), Entry(CallbackTask(c), t)))
      && CanUser(s, Push(Some(w), Entry(FiberTask(f), t)))
      && (DisciplinedUser(s, Push(Some(w), Entry(FiberTask(f), t))) <==> !Queued(s, f))
      && (0 <= t != w ==> CanUser(s, SwitchTo(w, t)) && (DisciplinedUser(s, SwitchTo(w, t)) <==> !Queued(s, f)))
      && CanUser(s, NewFiber(c)) && CanUser(s, TakeRef(w))
  {
    RunInv(tr, acts, k);
    assert WorkerFits(tr[k], w, tr[k].workers[w]);
  }
}
