/** The properties of the M:N scheduler, stated for every state of every disciplined run. */
module WorkerTheorems {
  import opened Options
  import opened FiberStates
  import opened Bags
  import opened WorkerHistory
  import opened WorkerSteps
  import opened WorkerInvariants
  import opened WorkerQuantities

  // ---- One more invariant: the callbacks of pooled fibers -------------------------------------------

  ghost predicate AboutToEnter(s: System, f: FiberId) {
    exists w :: 0 <= w < |s.workers| && s.workers[w].pc == Handling(f, Entering, true)
  }

  /** A fiber that run() made for a callback waits only while its worker is about to enter it. */
  ghost predicate PoolEntered(s: System) {
    forall f :: 0 <= f < |s.fibers| && s.fibers[f].pooled && Pending(s.fibers[f]).Some? ==> AboutToEnter(s, f)
  }

  /** A step of worker `w` that creates no waiting callback and keeps the one it is about to enter. */
  lemma KeepPool(s: System, s': System, w: WorkerId)
    requires PoolEntered(s)
    requires w < |s.workers| == |s'.workers| && s'.workers == s.workers[w := s'.workers[w]]
    requires forall f :: 0 <= f < |s'.fibers| && s'.fibers[f].pooled && Pending(s'.fibers[f]).Some? ==>
               s'.workers[w].pc == Handling(f, Entering, true)
               || (f < |s.fibers| && s.fibers[f].pooled && Pending(s.fibers[f]).Some?
                   && s.workers[w].pc != Handling(f, Entering, true))
    ensures PoolEntered(s')
  {
    forall f | 0 <= f < |s'.fibers| && s'.fibers[f].pooled && Pending(s'.fibers[f]).Some?
      ensures AboutToEnter(s', f)
    {
      if s'.workers[w].pc != Handling(f, Entering, true) {
        assert AboutToEnter(s, f);
        var v :| 0 <= v < |s.workers| && s.workers[v].pc == Handling(f, Entering, true);
        assert s'.workers[v] == s.workers[v];
      }
    }
  }

  lemma PoolMain(s: System, m: MainOp)
    requires Shape(s) && PoolEntered(s) && CanMain(s, m)
    ensures PoolEntered(ApplyMain(s, m))
  {
    if m == Start {
      assert forall w :: 0 <= w < |s.workers| ==> s.workers[w].pc.NotStarted?;
    } else {
      assert MainFits(s, 0, s.workers[0]);
      KeepPool(s, ApplyMain(s, m), 0);
    }
  }

  lemma PoolUser(s: System, u: UserOp)
    requires Shape(s) && PoolEntered(s) && CanUser(s, u)
    ensures PoolEntered(ApplyUser(s, u))
  {
    var s' := ApplyUser(s, u);
    forall f | 0 <= f < |s'.fibers| && s'.fibers[f].pooled && Pending(s'.fibers[f]).Some?
      ensures AboutToEnter(s', f)
    {
      assert AboutToEnter(s, f);
    }
  }

  lemma PoolRun(s: System, w: WorkerId, op: RunOp)
    requires PoolEntered(s) && CanRun(s, w, op) && WorkerFits(s, w, s.workers[w])
    ensures PoolEntered(ApplyRun(s, w, op))
  {
    KeepPool(s, ApplyRun(s, w, op), w);
  }

  lemma PoolSettle(s: System, w: WorkerId, op: SettleOp)
    requires PoolEntered(s) && CanSettle(s, w, op) && WorkerFits(s, w, s.workers[w])
    ensures PoolEntered(ApplySettle(s, w, op))
  {
    KeepPool(s, ApplySettle(s, w, op), w);
  }

  lemma PoolScan(s: System, w: WorkerId, op: ScanOp)
    requires PoolEntered(s) && CanScan(s, w, op)
    ensures PoolEntered(ApplyScan(s, w, op))
  {
    KeepPool(s, ApplyScan(s, w, op), w);
  }

  lemma PoolIdle(s: System, w: WorkerId, op: IdleOp)
    requires PoolEntered(s) && CanIdle(s, w, op)
    ensures PoolEntered(ApplyIdle(s, w, op))
  {
    KeepPool(s, ApplyIdle(s, w, op), w);
  }

  lemma PoolStep(s: System, a: Action)
    requires Shape(s) && PoolEntered(s) && CanStep(s, a)
    ensures PoolEntered(Apply(s, a))
  {
    match a
    case Main(m) => PoolMain(s, m);
    case User(u) => PoolUser(s, u);
    case Scan(w, op) => PoolScan(s, w, op);
    case Run(w, op) => PoolRun(s, w, op);
    case Settle(w, op) => PoolSettle(s, w, op);
    case Idle(w, op) => PoolIdle(s, w, op);
  }

  // ---- Every reachable state ------------------------------------------------------------------------

  ghost predicate Inv(s: System) {
    Structure(s) && Counters(s) && Conserved(s) && Covered(s) && SelfKept(s) && Landings(s) && PoolEntered(s)
  }

  lemma InitInv(s: System)
    requires Init(s)
    ensures Inv(s)
  {
    InitStructure(s);
    CountZero(IsActive, s.workers);
    CountZero(IsIdling, s.workers);
    forall c ensures ConservedFor(s, c) {
      OccurrencesZero(CallbackInHand, s.workers, c);
    }
  }

  lemma StepInv(s: System, a: Action)
    requires Inv(s) && CanStep(s, a) && Disciplined(s, a)
    ensures Inv(Apply(s, a))
  {
    StructureStep(s, a);
    CountersStep(s, a);
    ConservedStep(s, a);
    CoveredStep(s, a);
    SelfKeptStep(s, a);
    LandingsStep(s, a);
    PoolStep(s, a);
  }

  lemma {:induction false} RunInv(tr: seq<System>, acts: seq<Action>, k: nat)
    requires IsRun(tr, acts) && k <= |acts|
    ensures Inv(tr[k])
  {
    if k == 0 {
      InitInv(tr[0]);
    } else {
      RunInv(tr, acts, k - 1);
      assert StepAt(tr, acts, k - 1);
      StepInv(tr[k - 1], acts[k - 1]);
    }
  }

  // ---- Safety -----------------------------------------------------------------------------------------

  /** No fiber's stack is in use by two workers. */
  lemma OneRunnerPerFiber(tr: seq<System>, acts: seq<Action>, k: nat, w: WorkerId, v: WorkerId, f: FiberId)
    requires IsRun(tr, acts) && k <= |acts| && w < |tr[k].workers| && v < |tr[k].workers|
    requires Executing(tr[k].workers[w], f) && Executing(tr[k].workers[v], f)
    ensures w == v
  {
    RunInv(tr, acts, k);
    assert Holds(tr[k].workers[w], f) && Holds(tr[k].workers[v], f);
  }

  lemma AssertionsHoldIn(s: System, a: Action)
    requires Shape(s) && CanStep(s, a)
    ensures AssertionsHold(s, a)
  {
    match a
    case Run(w, op) => assert WorkerFits(s, w, s.workers[w]);
    case Settle(w, op) => assert WorkerFits(s, w, s.workers[w]);
    case Idle(w, op) => assert WorkerFits(s, w, s.workers[w]);
    case User(SwitchTo(w, t)) => assert WorkerFits(s, w, s.workers[w]);
    case _ =>
  }

  /** No assertion about fiber states fails, whichever step comes next. */
  lemma NoAssertionFails(tr: seq<System>, acts: seq<Action>, k: nat, a: Action)
    requires IsRun(tr, acts) && k <= |acts| && CanStep(tr[k], a)
    ensures AssertionsHold(tr[k], a)
  {
    RunInv(tr, acts, k);
    AssertionsHoldIn(tr[k], a);
  }

  /** A fiber is destroyed when its last pointer goes; then its stack is not in use. */
  lemma DestroyedFibersAreIdle(tr: seq<System>, acts: seq<Action>, k: nat, f: FiberId)
    requires IsRun(tr, acts) && k <= |acts| && f < |tr[k].fibers| && !Referenced(tr[k], f)
    ensures tr[k].fibers[f].state.Resettable()
  {
    RunInv(tr, acts, k);
  }

  /** The two atomic counters are exact. */
  lemma CountersAreExact(tr: seq<System>, acts: seq<Action>, k: nat)
    requires IsRun(tr, acts) && k <= |acts|
    ensures tr[k].active == Count(IsActive, tr[k].workers)
    ensures tr[k].idleCount == Count(IsIdling, tr[k].workers)
  {
    RunInv(tr, acts, k);
  }

  /** No callback is lost or started twice: it was handed over as often as it waits somewhere or was started. */
  lemma CallbacksConserved(tr: seq<System>, acts: seq<Action>, k: nat, c: Id)
    requires IsRun(tr, acts) && k <= |acts|
    ensures Handed(acts[..k], c) ==
            Occurrences(QueuedCallback, tr[k].queue, c) + Occurrences(CallbackInHand, tr[k].workers, c)
            + Occurrences(Pending, tr[k].fibers, c) + Starts(tr, acts, k, c)
  {
    RunInv(tr, acts, k);
    TalliesAreCounts(tr, acts, k, c);
    assert ConservedFor(tr[k], c);
  }

  // ---- What is true when a worker may leave -------------------------------------------------------------

  /** The callback of a fiber that user code created and that nobody has entered. */
  function OwnPending(x: Fiber): Option<Id> { if x.pooled then None else Pending(x) }

  /** Without a worker about to enter a pooled fiber, only user-made fibers still wait. */
  lemma OnlyOwnPending(s: System, c: Id)
    requires PoolEntered(s) && forall w :: 0 <= w < |s.workers| ==> !IsActive(s.workers[w])
    ensures Occurrences(Pending, s.fibers, c) == Occurrences(OwnPending, s.fibers, c)
  {
    forall f | 0 <= f < |s.fibers| ensures Pending(s.fibers[f]) == OwnPending(s.fibers[f]) {
      assert !AboutToEnter(s, f);
    }
    OccurrencesAgree(Pending, OwnPending, s.fibers, c);
  }

  /**
   Fiber `f` is in state `st` and with a worker that has decremented: one that has just done so, or one that has
   looked at the state and is at `phase`.
   */
  ghost predicate Settling(s: System, f: FiberId, st: State, phase: Phase)
    requires f < |s.fibers|
  {
    exists w :: 0 <= w < |s.workers| && s.workers[w].pc.Handling? && s.workers[w].pc.f == f
                && (s.workers[w].pc.phase == phase || (s.workers[w].pc.phase == Counted && s.fibers[f].state == st))
  }

  lemma SettlingWhenStopping(s: System, f: FiberId)
    requires Structure(s) && s.queue == [] && f < |s.fibers|
    requires forall w :: 0 <= w < |s.workers| ==> !IsActive(s.workers[w])
    ensures s.fibers[f].state == EXEC <==> Settling(s, f, EXEC, Parking)
    ensures s.fibers[f].state == READY <==> Settling(s, f, READY, Requeueing)
  {
    if s.fibers[f].state == EXEC || s.fibers[f].state == READY {
      var w :| 0 <= w < |s.workers| && Holds(s.workers[w], f);
      assert WorkerFits(s, w, s.workers[w]) && !IsActive(s.workers[w]);
    }
    forall w | 0 <= w < |s.workers| && s.workers[w].pc.Handling? && s.workers[w].pc.f == f
      ensures s.workers[w].pc.phase == Parking ==> s.fibers[f].state == EXEC
      ensures s.workers[w].pc.phase == Requeueing ==> s.fibers[f].state == READY
    {
      assert WorkerFits(s, w, s.workers[w]);
    }
  }

  /**
   Whenever stopping() is true: every scheduled callback has started, no fiber is executing, and it is known
   exactly which fibers are not at rest. The EXEC ones have yielded to hold and are about to be parked; the READY
   ones are in the hand of a worker between its decrement and its requeue.
   */
  lemma QuietWhenStopping(tr: seq<System>, acts: seq<Action>, k: nat)
    requires IsRun(tr, acts) && k <= |acts| && StoppingNow(tr[k])
    ensures forall c: Id :: Handed(acts[..k], c) == Occurrences(OwnPending, tr[k].fibers, c) + Starts(tr, acts, k, c)
    ensures forall w, f: FiberId :: 0 <= w < |tr[k].workers| ==> !Executing(tr[k].workers[w], f)
    ensures forall f :: 0 <= f < |tr[k].fibers| ==>
              && (tr[k].fibers[f].state == EXEC <==> Settling(tr[k], f, EXEC, Parking))
              && (tr[k].fibers[f].state == READY <==> Settling(tr[k], f, READY, Requeueing))
  {
    RunInv(tr, acts, k);
    var s := tr[k];
    CountZero(IsActive, s.workers);
    forall c: Id ensures Handed(acts[..k], c) == Occurrences(OwnPending, s.fibers, c) + Starts(tr, acts, k, c) {
      TalliesAreCounts(tr, acts, k, c);
      assert ConservedFor(s, c);
      OccurrencesZero(CallbackInHand, s.workers, c);
      OnlyOwnPending(s, c);
    }
    forall f | 0 <= f < |s.fibers|
      ensures s.fibers[f].state == EXEC <==> Settling(s, f, EXEC, Parking)
      ensures s.fibers[f].state == READY <==> Settling(s, f, READY, Requeueing)
    {
      SettlingWhenStopping(s, f);
    }
  }

  /**
   No task is left behind: once every worker has left, only entries pinned to some worker remain, every callback
   that was not pinned has started, and no fiber is EXEC or in a worker's hand.
   */
  lemma NoTaskLeftBehind(tr: seq<System>, acts: seq<Action>, k: nat)
    requires IsRun(tr, acts) && k <= |acts| && AllDone(tr[k])
    ensures forall i :: 0 <= i < |tr[k].queue| ==> tr[k].queue[i].thread != -1
    ensures forall c: Id :: Handed(acts[..k], c) == Occurrences(QueuedCallback, tr[k].queue, c)
              + Occurrences(OwnPending, tr[k].fibers, c) + Starts(tr, acts, k, c)
    ensures forall f :: 0 <= f < |tr[k].fibers| ==>
              tr[k].fibers[f].state != EXEC && (tr[k].fibers[f].state == READY ==> Queued(tr[k], f))
  {
    RunInv(tr, acts, k);
    var s := tr[k];
    forall i | 0 <= i < |s.queue| ensures s.queue[i].thread != -1 {
      assert forall w :: 0 <= w < |s.workers| ==> Done(s.workers[w]);
      assert !Seen(s, i);
    }
    forall c: Id ensures Handed(acts[..k], c) == Occurrences(QueuedCallback, s.queue, c)
                           + Occurrences(OwnPending, s.fibers, c) + Starts(tr, acts, k, c) {
      TalliesAreCounts(tr, acts, k, c);
      assert ConservedFor(s, c);
      assert forall w :: 0 <= w < |s.workers| ==> Done(s.workers[w]);
      OccurrencesZero(CallbackInHand, s.workers, c);
      OnlyOwnPending(s, c);
    }
    forall f, w | 0 <= f < |s.fibers| && 0 <= w < |s.workers| && Holds(s.workers[w], f)
      ensures s.fibers[f].state == INIT
    {
      assert WorkerFits(s, w, s.workers[w]) && Done(s.workers[w]);
    }
  }

  // ---- Queued fibers ------------------------------------------------------------------------------------

  /** Worker `w` has taken fiber `f` from the queue and has not entered it yet. */
  predicate InHand(s: System, w: WorkerId, f: FiberId) {
    w < |s.workers| && s.workers[w].pc.Handling? && s.workers[w].pc.f == f
    && (s.workers[w].pc.phase == Taken || s.workers[w].pc.phase == Entering)
  }

  /** Worker `w` serves what is pinned to `t`, where -1 means not pinned. */
  predicate Suits(w: WorkerId, t: int) { t == -1 || w == t }

  /** An entry of the fiber with the pin `t` waits in the queue, or a worker that suits has just taken it. */
  ghost predicate Waiting(s: System, f: FiberId, t: int) {
    Entry(FiberTask(f), t) in s.queue || exists w :: Suits(w, t) && InHand(s, w, f)
  }

  /** The step enters the fiber, or finds that its function has ended already. */
  predicate TakesUp(s: System, a: Action, f: FiberId) {
    a.Run? && InHand(s, a.w, f)
    && (a.run == Enter || (a.run == Check && f < |s.fibers| && s.fibers[f].state.Dead()))
  }

  /** A worker that suits the pin does so. */
  predicate TakesUpOn(s: System, a: Action, f: FiberId, t: int) { TakesUp(s, a, f) && Suits(a.w, t) }

  lemma WaitingScan(s: System, w: WorkerId, op: ScanOp, f: FiberId, t: int)
    requires CanScan(s, w, op) && Waiting(s, f, t)
    ensures Waiting(ApplyScan(s, w, op), f, t)
  {
    var s' := ApplyScan(s, w, op);
    if v: WorkerId :| Suits(v, t) && InHand(s, v, f) {
      assert InHand(s', v, f);
    } else if op == Pick {
      var i := s.workers[w].pc.i;
      var k :| 0 <= k < |s.queue| && s.queue[k] == Entry(FiberTask(f), t);
      if k == i {
        assert InHand(s', w, f);
      } else {
        assert s'.queue[if k < i then k else k - 1] == s.queue[k];
      }
    }
  }

  lemma WaitingWorker(s: System, s': System, w: WorkerId, f: FiberId, t: int)
    requires Waiting(s, f, t) && s.queue <= s'.queue
    requires w < |s.workers| == |s'.workers| && s'.workers == s.workers[w := s'.workers[w]]
    requires Suits(w, t) && InHand(s, w, f) ==> InHand(s', w, f)
    ensures Waiting(s', f, t)
  {
    if v: WorkerId :| Suits(v, t) && InHand(s, v, f) {
      assert InHand(s', v, f);
    } else {
      var k :| 0 <= k < |s.queue| && s.queue[k] == Entry(FiberTask(f), t);
      assert s'.queue[k] == s.queue[k];
    }
  }

  lemma WaitingMain(s: System, m: MainOp, f: FiberId, t: int)
    requires Shape(s) && CanMain(s, m) && Waiting(s, f, t)
    ensures Waiting(ApplyMain(s, m), f, t)
  {
    if m == Start {
      assert forall w :: 0 <= w < |s.workers| ==> s.workers[w].pc.NotStarted?;
    } else {
      assert MainFits(s, 0, s.workers[0]);
      WaitingWorker(s, ApplyMain(s, m), 0, f, t);
    }
  }

  lemma WaitingUser(s: System, u: UserOp, f: FiberId, t: int)
    requires CanUser(s, u) && Waiting(s, f, t)
    ensures Waiting(ApplyUser(s, u), f, t)
  {
    var s' := ApplyUser(s, u);
    assert s.queue <= s'.queue && s'.workers == s.workers;
    if w: WorkerId :| Suits(w, t) && InHand(s, w, f) {
      assert InHand(s', w, f);
    }
  }

  lemma WaitingTask(s: System, w: WorkerId, op: RunOp, f: FiberId, t: int)
    requires CanRun(s, w, op) && Waiting(s, f, t) && !TakesUpOn(s, Run(w, op), f, t)
    ensures Waiting(ApplyRun(s, w, op), f, t)
  {
    assert Suits(w, t) && InHand(s, w, f) ==> InHand(ApplyRun(s, w, op), w, f);
    WaitingWorker(s, ApplyRun(s, w, op), w, f, t);
  }

  lemma WaitingSettle(s: System, w: WorkerId, op: SettleOp, f: FiberId, t: int)
    requires CanSettle(s, w, op) && Waiting(s, f, t)
    ensures Waiting(ApplySettle(s, w, op), f, t)
  {
    WaitingWorker(s, ApplySettle(s, w, op), w, f, t);
  }

  lemma WaitingIdle(s: System, w: WorkerId, op: IdleOp, f: FiberId, t: int)
    requires CanIdle(s, w, op) && Waiting(s, f, t)
    ensures Waiting(ApplyIdle(s, w, op), f, t)
  {
    WaitingWorker(s, ApplyIdle(s, w, op), w, f, t);
  }

  lemma WaitingStep(s: System, a: Action, f: FiberId, t: int)
    requires Shape(s) && CanStep(s, a) && Waiting(s, f, t) && !TakesUpOn(s, a, f, t)
    ensures Waiting(Apply(s, a), f, t)
  {
    match a
    case Main(m) => WaitingMain(s, m, f, t);
    case User(u) => WaitingUser(s, u, f, t);
    case Scan(w, op) => WaitingScan(s, w, op, f, t);
    case Run(w, op) => WaitingTask(s, w, op, f, t);
    case Settle(w, op) => WaitingSettle(s, w, op, f, t);
    case Idle(w, op) => WaitingIdle(s, w, op, f, t);
  }

  /** One step of a run, with what is known before it. */
  lemma OnRun(tr: seq<System>, acts: seq<Action>, k: nat)
    requires IsRun(tr, acts) && k < |acts|
    ensures Shape(tr[k]) && CanStep(tr[k], acts[k]) && tr[k + 1] == Apply(tr[k], acts[k])
  {
    RunInv(tr, acts, k);
    assert StepAt(tr, acts, k);
  }

  lemma WaitingNext(tr: seq<System>, acts: seq<Action>, k: nat, f: FiberId, t: int)
    requires IsRun(tr, acts) && k < |acts| && Waiting(tr[k], f, t) && !TakesUpOn(tr[k], acts[k], f, t)
    ensures Waiting(tr[k + 1], f, t)
  {
    OnRun(tr, acts, k);
    WaitingStep(tr[k], acts[k], f, t);
  }

  lemma {:induction false} WaitingRun(tr: seq<System>, acts: seq<Action>, j: nat, k: nat, f: FiberId, t: int)
    requires IsRun(tr, acts) && j <= k <= |acts| && Waiting(tr[j], f, t)
    requires forall i :: j <= i < k ==> !TakesUpOn(tr[i], acts[i], f, t)
    ensures Waiting(tr[k], f, t)
  {
    if j < k {
      WaitingRun(tr, acts, j, k - 1, f, t);
      WaitingNext(tr, acts, k - 1, f, t);
    }
  }

  /**
   Every fiber that is in the queue unpinned at any time is entered before the last worker has left, unless its
   function has ended by then; and so is a pinned one, by the worker it is pinned to, if its entry is not left in
   the queue.
   */
  lemma EveryQueuedFiberRuns(tr: seq<System>, acts: seq<Action>, j: nat, k: nat, f: FiberId, t: int)
    requires IsRun(tr, acts) && j <= k <= |acts|
    requires Entry(FiberTask(f), t) in tr[j].queue && AllDone(tr[k])
    requires t != -1 ==> Entry(FiberTask(f), t) !in tr[k].queue
    ensures exists i :: j <= i < k && TakesUpOn(tr[i], acts[i], f, t)
  {
    if forall i :: j <= i < k ==> !TakesUpOn(tr[i], acts[i], f, t) {
      WaitingRun(tr, acts, j, k, f, t);
      NoTaskLeftBehind(tr, acts, k);
      NobodyWaits(tr[k], f, t);
    }
  }

  lemma NobodyWaits(s: System, f: FiberId, t: int)
    requires AllDone(s) && Entry(FiberTask(f), t) !in s.queue
    ensures !Waiting(s, f, t)
  {
    assert forall w: WorkerId :: w < |s.workers| ==> Done(s.workers[w]);
  }

  // ---- switchTo -----------------------------------------------------------------------------------------

  /** The step resumes fiber `f`. */
  predicate Resumes(s: System, a: Action, f: FiberId) {
    && a.Run? && a.run == Enter && a.w < |s.workers|
    && s.workers[a.w].pc == Handling(f, Entering, s.workers[a.w].cbFiber == Some(f))
  }

  lemma PinnedIsQueued(q: seq<Entry>, f: FiberId, t: WorkerId)
    ensures PinnedTo(q, f, t) ==> InQueue(q, f)
  {
    if PinnedTo(q, f, t) {
      var k :| 0 <= k < |q| && q[k] == Entry(FiberTask(f), t);
      assert IsFiber(q[k], f);
    }
  }

  /** A fiber inside a switchTo() cannot start another one. */
  lemma NoNestedSwitch(s: System, w: WorkerId, t: WorkerId)
    requires Landings(s) && OneHolder(s)
    requires CanUser(s, SwitchTo(w, t)) && DisciplinedUser(s, SwitchTo(w, t))
    ensures Hand(s, w).landing == None
  {
    var f := s.workers[w].pc.f;
    assert Holds(s.workers[w], f);
    assert forall u: WorkerId :: TakenBy(s, f, u) ==> u == w && Holds(s.workers[u], f);
    if s.fibers[f].landing.Some? {
      PinnedIsQueued(s.queue, f, s.fibers[f].landing.value);
    }
  }

  lemma LandingPersistsPrepare(s: System, w: WorkerId, f: FiberId)
    requires CanRun(s, w, Prepare) && WorkerFits(s, w, s.workers[w]) && f < |s.fibers|
    ensures f < |ApplyRun(s, w, Prepare).fibers|
    ensures ApplyRun(s, w, Prepare).fibers[f].landing == s.fibers[f].landing
  {
  }

  lemma LandingPersistsEnter(s: System, w: WorkerId, f: FiberId)
    requires CanRun(s, w, Enter) && WorkerFits(s, w, s.workers[w])
    requires f < |s.fibers| && !Resumes(s, Run(w, Enter), f)
    ensures ApplyRun(s, w, Enter).fibers[f].landing == s.fibers[f].landing
  {
  }

  lemma LandingPersistsRun(s: System, w: WorkerId, op: RunOp, f: FiberId)
    requires CanRun(s, w, op) && WorkerFits(s, w, s.workers[w])
    requires f < |s.fibers| && !Resumes(s, Run(w, op), f)
    ensures f < |ApplyRun(s, w, op).fibers| && ApplyRun(s, w, op).fibers[f].landing == s.fibers[f].landing
  {
    match op
    case Prepare => LandingPersistsPrepare(s, w, f);
    case Enter => LandingPersistsEnter(s, w, f);
    case _ =>
  }

  lemma LandingPersistsSettle(s: System, w: WorkerId, op: SettleOp, f: FiberId)
    requires CanSettle(s, w, op) && f < |s.fibers|
    ensures f < |ApplySettle(s, w, op).fibers| && ApplySettle(s, w, op).fibers[f].landing == s.fibers[f].landing
  {
  }

  lemma LandingPersistsUser(s: System, u: UserOp, f: FiberId)
    requires Landings(s) && OneHolder(s) && CanUser(s, u) && DisciplinedUser(s, u)
    requires f < |s.fibers| && s.fibers[f].landing.Some?
    ensures f < |ApplyUser(s, u).fibers| && ApplyUser(s, u).fibers[f].landing == s.fibers[f].landing
  {
    if u.SwitchTo? {
      NoNestedSwitch(s, u.w, u.t);
    }
  }

  lemma LandingPersists(tr: seq<System>, acts: seq<Action>, k: nat, f: FiberId)
    requires IsRun(tr, acts) && k < |acts|
    requires f < |tr[k].fibers| && tr[k].fibers[f].landing.Some? && !Resumes(tr[k], acts[k], f)
    ensures f < |tr[k + 1].fibers| && tr[k + 1].fibers[f].landing == tr[k].fibers[f].landing
  {
    RunInv(tr, acts, k);
    assert StepAt(tr, acts, k);
    match acts[k]
    case Run(w, op) => LandingPersistsRun(tr[k], w, op, f);
    case Settle(w, op) => LandingPersistsSettle(tr[k], w, op, f);
    case User(u) => LandingPersistsUser(tr[k], u, f);
    case _ => assert tr[k + 1].fibers == tr[k].fibers;
  }

  lemma {:induction false} LandingKept(tr: seq<System>, acts: seq<Action>, j: nat, k: nat, f: FiberId, t: WorkerId)
    requires IsRun(tr, acts) && j <= k <= |acts|
    requires f < |tr[j].fibers| && tr[j].fibers[f].landing == Some(t)
    requires forall i :: j <= i < k ==> !Resumes(tr[i], acts[i], f)
    ensures f < |tr[k].fibers| && tr[k].fibers[f].landing == Some(t)
  {
    if j < k {
      LandingKept(tr, acts, j, k - 1, f, t);
      LandingPersists(tr, acts, k - 1, f);
    }
  }

  /** When a `switchTo(t)` made at step `j` returns, at the next resumption of the fiber, it is on worker `t`. */
  lemma SwitchToLandsThere(tr: seq<System>, acts: seq<Action>, j: nat, k: nat, w: WorkerId, t: WorkerId)
    requires IsRun(tr, acts) && j < k < |acts| && acts[j] == User(SwitchTo(w, t))
    requires w < |tr[j].workers| && tr[j].workers[w].pc.Handling?
    requires Resumes(tr[k], acts[k], tr[j].workers[w].pc.f)
    requires forall i :: j < i < k ==> !Resumes(tr[i], acts[i], tr[j].workers[w].pc.f)
    ensures acts[k].w == t
  {
    var f := tr[j].workers[w].pc.f;
    assert StepAt(tr, acts, j);
    LandingKept(tr, acts, j + 1, k, f, t);
    RunInv(tr, acts, k);
    var s := tr[k];
    var v := acts[k].w;
    assert WorkerFits(s, v, s.workers[v]) && Holds(s.workers[v], f);
    PinnedIsQueued(s.queue, f, t);
    assert t < |s.workers| && Holds(s.workers[t], f);
  }
}
