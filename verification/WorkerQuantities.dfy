/** Counters, conservation of callbacks, coverage of the queue, references, and pending `switchTo` calls. */
module WorkerQuantities {
  import opened Options
  import opened FiberStates
  import opened Bags
  import opened WorkerHistory
  import opened WorkerSteps
  import opened WorkerInvariants

  // ---- Group 3: the counters ----------------------------------------------------------------------

  /** The atomic counters say exactly how many workers are inside the regions that they bracket. */
  ghost predicate Counters(s: System) {
    s.active == Count(IsActive, s.workers) && s.idleCount == Count(IsIdling, s.workers)
  }

  /** A change of one worker's record is matched by the counters. */
  ghost predicate CountsMatch(s: System, s': System, w: WorkerId)
    requires w < |s.workers| == |s'.workers|
  {
    && s'.workers == s.workers[w := s'.workers[w]]
    && s'.active == s.active + One(IsActive(s'.workers[w])) - One(IsActive(s.workers[w]))
    && s'.idleCount == s.idleCount + One(IsIdling(s'.workers[w])) - One(IsIdling(s.workers[w]))
  }

  lemma KeepCounters(s: System, s': System, w: WorkerId)
    requires Counters(s) && w < |s.workers| == |s'.workers| && CountsMatch(s, s', w)
    ensures Counters(s')
  {
    CountUpdate(IsActive, s.workers, w, s'.workers[w]);
    CountUpdate(IsIdling, s.workers, w, s'.workers[w]);
  }

  lemma CountersStart(s: System)
    requires Counters(s) && CanMain(s, Start)
    requires forall w :: 0 <= w < |s.workers| ==> s.workers[w].pc.NotStarted?
    ensures Counters(ApplyMain(s, Start))
  {
    var s' := ApplyMain(s, Start);
    assert forall w :: 0 <= w < |s.workers| ==> s'.workers[w].pc.NotStarted? || s'.workers[w].pc.Top?;
    CountZero(IsActive, s.workers);
    CountZero(IsIdling, s.workers);
    CountZero(IsActive, s'.workers);
    CountZero(IsIdling, s'.workers);
  }

  lemma CountersMain(s: System, m: MainOp)
    requires Counters(s) && CanMain(s, m)
    requires forall w :: 0 <= w < |s.workers| ==> MainFits(s, w, s.workers[w])
    ensures Counters(ApplyMain(s, m))
  {
    match m
    case Start => CountersStart(s);
    case CallRoot =>
      assert MainFits(s, 0, s.workers[0]);
      if s.useCaller {
        KeepCounters(s, ApplyMain(s, m), 0);
      }
    case _ =>
  }

  lemma CountersScan(s: System, w: WorkerId, op: ScanOp)
    requires Counters(s) && CanScan(s, w, op)
    ensures Counters(ApplyScan(s, w, op))
  {
    KeepCounters(s, ApplyScan(s, w, op), w);
  }

  lemma CountsMatchPrepare(s: System, w: WorkerId)
    requires CanRun(s, w, Prepare)
    ensures CountsMatch(s, ApplyRun(s, w, Prepare), w)
  {
  }

  lemma CountsMatchRun(s: System, w: WorkerId, op: RunOp)
    requires CanRun(s, w, op)
    ensures CountsMatch(s, ApplyRun(s, w, op), w)
  {
    if op == Prepare {
      CountsMatchPrepare(s, w);
    }
  }

  lemma CountersRun(s: System, w: WorkerId, op: RunOp)
    requires Counters(s) && CanRun(s, w, op)
    ensures Counters(ApplyRun(s, w, op))
  {
    CountsMatchRun(s, w, op);
    KeepCounters(s, ApplyRun(s, w, op), w);
  }

  lemma CountsMatchInspect(s: System, w: WorkerId)
    requires CanSettle(s, w, Inspect)
    ensures CountsMatch(s, ApplySettle(s, w, Inspect), w)
  {
  }

  lemma CountsMatchDecrement(s: System, w: WorkerId)
    requires CanSettle(s, w, Decrement)
    ensures CountsMatch(s, ApplySettle(s, w, Decrement), w)
  {
  }

  lemma CountsMatchSettle(s: System, w: WorkerId, op: SettleOp)
    requires CanSettle(s, w, op)
    ensures CountsMatch(s, ApplySettle(s, w, op), w)
  {
    match op
    case Inspect => CountsMatchInspect(s, w);
    case Decrement => CountsMatchDecrement(s, w);
    case _ =>
  }

  lemma CountersSettle(s: System, w: WorkerId, op: SettleOp)
    requires Counters(s) && CanSettle(s, w, op)
    ensures Counters(ApplySettle(s, w, op))
  {
    CountsMatchSettle(s, w, op);
    KeepCounters(s, ApplySettle(s, w, op), w);
  }

  lemma CountsMatchIdle(s: System, w: WorkerId, op: IdleOp)
    requires CanIdle(s, w, op)
    ensures CountsMatch(s, ApplyIdle(s, w, op), w)
  {
  }

  lemma CountersIdle(s: System, w: WorkerId, op: IdleOp)
    requires Counters(s) && CanIdle(s, w, op)
    ensures Counters(ApplyIdle(s, w, op))
  {
    CountsMatchIdle(s, w, op);
    KeepCounters(s, ApplyIdle(s, w, op), w);
  }

  lemma CountersStep(s: System, a: Action)
    requires Counters(s) && CanStep(s, a)
    requires forall w :: 0 <= w < |s.workers| ==> MainFits(s, w, s.workers[w])
    ensures Counters(Apply(s, a))
  {
    match a
    case Main(m) => CountersMain(s, m);
    case User(u) =>
    case Scan(w, op) => CountersScan(s, w, op);
    case Run(w, op) => CountersRun(s, w, op);
    case Settle(w, op) => CountersSettle(s, w, op);
    case Idle(w, op) => CountersIdle(s, w, op);
  }

  // ---- Group 4: conservation of callbacks -----------------------------------------------------------

  /** Callback `c` was handed in as often as it is queued, in a hand, waiting in a fresh fiber, or started. */
  ghost predicate ConservedFor(s: System, c: Id) {
    s.submitted[c] == Occurrences(QueuedCallback, s.queue, c) + Occurrences(CallbackInHand, s.workers, c)
                      + Occurrences(Pending, s.fibers, c) + s.started[c]
  }

  ghost predicate Conserved(s: System) {
    forall c :: ConservedFor(s, c)
  }

  /** A worker's step that moves no callback. */
  lemma ConservedQuiet(s: System, s': System, w: WorkerId, c: Id)
    requires ConservedFor(s, c) && w < |s.workers| == |s'.workers| && s'.workers == s.workers[w := s'.workers[w]]
    requires s'.queue == s.queue && s'.fibers == s.fibers && s'.submitted == s.submitted && s'.started == s.started
    requires CallbackInHand(s.workers[w]) == CallbackInHand(s'.workers[w])
    ensures ConservedFor(s', c)
  {
    OccurrencesUpdate(CallbackInHand, s.workers, w, s'.workers[w], c);
  }

  lemma ConservedMain(s: System, m: MainOp, c: Id)
    requires ConservedFor(s, c) && CanMain(s, m)
    requires forall w :: 0 <= w < |s.workers| ==> MainFits(s, w, s.workers[w])
    ensures ConservedFor(ApplyMain(s, m), c)
  {
    var s' := ApplyMain(s, m);
    match m
    case Start =>
      assert forall w :: 0 <= w < |s.workers| ==> s.workers[w].pc.NotStarted?;
      assert forall w :: 0 <= w < |s.workers| ==> s'.workers[w].pc.NotStarted? || s'.workers[w].pc.Top?;
      OccurrencesZero(CallbackInHand, s.workers, c);
      OccurrencesZero(CallbackInHand, s'.workers, c);
    case CallRoot =>
      assert MainFits(s, 0, s.workers[0]);
      if s.useCaller {
        ConservedQuiet(s, s', 0, c);
      }
    case _ =>
  }

  /** A change of one fiber, and perhaps of worker `w`, that moves no callback. */
  lemma ConservedFiber(s: System, s': System, w: WorkerId, f: FiberId, c: Id)
    requires ConservedFor(s, c) && w < |s.workers| == |s'.workers| && s'.workers == s.workers[w := s'.workers[w]]
    requires f < |s.fibers| == |s'.fibers| && s'.fibers == s.fibers[f := s'.fibers[f]]
    requires s'.queue == s.queue && s'.submitted == s.submitted && s'.started == s.started
    requires CallbackInHand(s.workers[w]) == CallbackInHand(s'.workers[w])
    requires Pending(s.fibers[f]) == Pending(s'.fibers[f])
    ensures ConservedFor(s', c)
  {
    OccurrencesUpdate(CallbackInHand, s.workers, w, s'.workers[w], c);
    OccurrencesUpdate(Pending, s.fibers, f, s'.fibers[f], c);
  }

  lemma ConservedSwitchTo(s: System, w: WorkerId, t: WorkerId, c: Id)
    requires ConservedFor(s, c) && CanUser(s, SwitchTo(w, t))
    ensures ConservedFor(ApplyUser(s, SwitchTo(w, t)), c)
  {
    var f := s.workers[w].pc.f;
    OccurrencesAppend(QueuedCallback, s.queue, Entry(FiberTask(f), t), c);
    OccurrencesUpdate(Pending, s.fibers, f, s.fibers[f].(landing := Some(t)), c);
  }

  lemma ConservedUser(s: System, u: UserOp, c: Id)
    requires ConservedFor(s, c) && CanUser(s, u) && 0 < |s.workers|
    ensures ConservedFor(ApplyUser(s, u), c)
  {
    match u
    case Push(caller, e) => OccurrencesAppend(QueuedCallback, s.queue, e, c);
    case SwitchTo(w, t) => ConservedSwitchTo(s, w, t, c);
    case NewFiber(b) => OccurrencesAppend(Pending, s.fibers, Fiber(INIT, Some(b), false, false, true, None), c);
    case TakeRef(w) => ConservedFiber(s, ApplyUser(s, u), w, s.workers[w].pc.f, c);
    case DropRef(f) =>
      assert s.workers == s.workers[0 := s.workers[0]];
      ConservedFiber(s, ApplyUser(s, u), 0, f, c);
  }

  lemma ConservedScan(s: System, w: WorkerId, op: ScanOp, c: Id)
    requires ConservedFor(s, c) && CanScan(s, w, op)
    ensures ConservedFor(ApplyScan(s, w, op), c)
  {
    OccurrencesUpdate(CallbackInHand, s.workers, w, ApplyScan(s, w, op).workers[w], c);
    if op == Pick {
      OccurrencesRemove(QueuedCallback, s.queue, s.workers[w].pc.i, c);
    }
  }

  lemma ConservedPrepare(s: System, w: WorkerId, c: Id)
    requires ConservedFor(s, c) && CanRun(s, w, Prepare) && WorkerFits(s, w, s.workers[w])
    ensures ConservedFor(ApplyRun(s, w, Prepare), c)
  {
    var s' := ApplyRun(s, w, Prepare);
    OccurrencesUpdate(CallbackInHand, s.workers, w, s'.workers[w], c);
    if s.workers[w].cbFiber.Some? {
      var g := s.workers[w].cbFiber.value;
      OccurrencesUpdate(Pending, s.fibers, g, s'.fibers[g], c);
    } else {
      OccurrencesAppend(Pending, s.fibers, Fiber(INIT, Some(s.workers[w].pc.c), true, false, false, None), c);
    }
  }

  lemma ConservedEnter(s: System, w: WorkerId, c: Id)
    requires ConservedFor(s, c) && CanRun(s, w, Enter) && WorkerFits(s, w, s.workers[w])
    ensures ConservedFor(ApplyRun(s, w, Enter), c)
  {
    var s' := ApplyRun(s, w, Enter);
    OccurrencesUpdate(CallbackInHand, s.workers, w, s'.workers[w], c);
    OccurrencesUpdate(Pending, s.fibers, s.workers[w].pc.f, Entered(Hand(s, w)), c);
  }

  lemma ConservedLeave(s: System, w: WorkerId, how: Exit, c: Id)
    requires ConservedFor(s, c) && CanRun(s, w, Leave(how)) && WorkerFits(s, w, s.workers[w])
    ensures ConservedFor(ApplyRun(s, w, Leave(how)), c)
  {
    ConservedFiber(s, ApplyRun(s, w, Leave(how)), w, s.workers[w].pc.f, c);
  }

  lemma ConservedRun(s: System, w: WorkerId, op: RunOp, c: Id)
    requires ConservedFor(s, c) && CanRun(s, w, op) && WorkerFits(s, w, s.workers[w])
    ensures ConservedFor(ApplyRun(s, w, op), c)
  {
    match op
    case Prepare => ConservedPrepare(s, w, c);
    case Enter => ConservedEnter(s, w, c);
    case Leave(how) => ConservedLeave(s, w, how, c);
    case _ => ConservedQuiet(s, ApplyRun(s, w, op), w, c);
  }

  lemma ConservedRequeue(s: System, w: WorkerId, c: Id)
    requires ConservedFor(s, c) && CanSettle(s, w, Requeue)
    ensures ConservedFor(ApplySettle(s, w, Requeue), c)
  {
    OccurrencesUpdate(CallbackInHand, s.workers, w, ApplySettle(s, w, Requeue).workers[w], c);
    OccurrencesAppend(QueuedCallback, s.queue, Entry(FiberTask(s.workers[w].pc.f), -1), c);
  }

  lemma ConservedRelease(s: System, w: WorkerId, op: SettleOp, c: Id)
    requires ConservedFor(s, c) && CanSettle(s, w, op) && WorkerFits(s, w, s.workers[w])
    requires op == Park || op == Recycle
    ensures ConservedFor(ApplySettle(s, w, op), c)
  {
    ConservedFiber(s, ApplySettle(s, w, op), w, s.workers[w].pc.f, c);
  }

  lemma ConservedInspect(s: System, w: WorkerId, c: Id)
    requires ConservedFor(s, c) && CanSettle(s, w, Inspect)
    ensures ConservedFor(ApplySettle(s, w, Inspect), c)
  {
    ConservedQuiet(s, ApplySettle(s, w, Inspect), w, c);
  }

  lemma ConservedDecrement(s: System, w: WorkerId, c: Id)
    requires ConservedFor(s, c) && CanSettle(s, w, Decrement)
    ensures ConservedFor(ApplySettle(s, w, Decrement), c)
  {
    ConservedQuiet(s, ApplySettle(s, w, Decrement), w, c);
  }

  lemma ConservedSettle(s: System, w: WorkerId, op: SettleOp, c: Id)
    requires ConservedFor(s, c) && CanSettle(s, w, op) && WorkerFits(s, w, s.workers[w])
    ensures ConservedFor(ApplySettle(s, w, op), c)
  {
    if op == Requeue {
      ConservedRequeue(s, w, c);
    } else if op == Park || op == Recycle {
      ConservedRelease(s, w, op, c);
    } else if op == Inspect {
      ConservedInspect(s, w, c);
    } else {
      ConservedDecrement(s, w, c);
    }
  }

  lemma ConservedIdle(s: System, w: WorkerId, op: IdleOp, c: Id)
    requires ConservedFor(s, c) && CanIdle(s, w, op)
    ensures ConservedFor(ApplyIdle(s, w, op), c)
  {
    ConservedQuiet(s, ApplyIdle(s, w, op), w, c);
  }

  lemma ConservedStep(s: System, a: Action)
    requires Shape(s) && Conserved(s) && CanStep(s, a)
    ensures Conserved(Apply(s, a)) && forall c :: Tallied(s, a, Apply(s, a), c)
  {
    forall c ensures Tallied(s, a, Apply(s, a), c) {
      TalliedStep(s, a, c);
    }
    forall c ensures ConservedFor(Apply(s, a), c) {
      assert ConservedFor(s, c);
      match a
      case Main(m) => ConservedMain(s, m, c);
      case User(u) => ConservedUser(s, u, c);
      case Scan(w, op) => ConservedScan(s, w, op, c);
      case Run(w, op) => ConservedRun(s, w, op, c);
      case Settle(w, op) => ConservedSettle(s, w, op, c);
      case Idle(w, op) => ConservedIdle(s, w, op, c);
    }
  }

  // ---- Group 5: coverage of the queue ---------------------------------------------------------------

  /** From where the worker is now it will look at index `k` of the queue before it can leave. */
  predicate WillSee(wk: Worker, k: nat) {
    match wk.pc
    case Exited | Skipped => false
    case IdleCheck => wk.idle != TERM
    case Scanning(i) => wk.idle != TERM || i <= k
    case _ => true
  }

  /** Some worker will look at entry `k`. */
  ghost predicate Seen(s: System, k: nat) {
    exists w :: 0 <= w < |s.workers| && WillSee(s.workers[w], k)
  }

  ghost predicate Covered(s: System) {
    forall k :: 0 <= k < |s.queue| && s.queue[k].thread == -1 ==> Seen(s, k)
  }

  /** A worker that is going back to the top covers the whole queue. */
  lemma CoveredBy(s: System, w: WorkerId)
    requires w < |s.workers| && forall k :: 0 <= k < |s.queue| ==> WillSee(s.workers[w], k)
    ensures Covered(s)
  {
    forall k | 0 <= k < |s.queue| ensures Seen(s, k) {
      assert WillSee(s.workers[w], k);
    }
  }

  /** Worker `w` may lose sight of entries only if another worker sees them. */
  lemma KeepCovered(s: System, s': System, w: WorkerId)
    requires Covered(s) && s.queue == s'.queue
    requires w < |s.workers| == |s'.workers| && s'.workers == s.workers[w := s'.workers[w]]
    requires forall k :: 0 <= k < |s.queue| && s.queue[k].thread == -1 && WillSee(s.workers[w], k)
                         ==> WillSee(s'.workers[w], k) || Seen(s', k)
    ensures Covered(s')
  {
    forall k | 0 <= k < |s'.queue| && s'.queue[k].thread == -1 ensures Seen(s', k) {
      assert Seen(s, k);
      var v :| 0 <= v < |s.workers| && WillSee(s.workers[v], k);
      assert v != w ==> s'.workers[v] == s.workers[v];
    }
  }

  /** Before stop() no worker has seen its idle fiber end. */
  lemma CoveredPush(s: System, caller: Option<WorkerId>, e: Entry)
    requires Structure(s) && Covered(s)
    requires CanUser(s, Push(caller, e)) && DisciplinedUser(s, Push(caller, e))
    ensures Covered(ApplyUser(s, Push(caller, e)))
  {
    var s' := ApplyUser(s, Push(caller, e));
    if caller.Some? {
      CoveredBy(s', caller.value);
    } else {
      assert WorkerFits(s, 0, s.workers[0]) && MainFits(s, 0, s.workers[0]);
      CoveredBy(s', 0);
    }
  }

  /** Skipping an unpinned entry means that its fiber is EXEC, hence held by a worker that will come back. */
  lemma CoveredSkip(s: System, w: WorkerId)
    requires Structure(s) && Covered(s) && CanScan(s, w, Skip)
    ensures Covered(ApplyScan(s, w, Skip))
  {
    var s' := ApplyScan(s, w, Skip);
    var i := s.workers[w].pc.i;
    if s.queue[i].thread == -1 {
      var f := s.queue[i].task.f;
      var v :| 0 <= v < |s.workers| && Holds(s.workers[v], f);
      assert WorkerFits(s, v, s.workers[v]) && s.workers[v].pc.Handling? && v != w;
      assert s'.workers[v] == s.workers[v];
      CoveredBy(s', v);
    } else {
      KeepCovered(s, s', w);
    }
  }

  lemma CoveredScan(s: System, w: WorkerId, op: ScanOp)
    requires Structure(s) && Covered(s) && CanScan(s, w, op)
    ensures Covered(ApplyScan(s, w, op))
  {
    var s' := ApplyScan(s, w, op);
    match op
    case Lock => CoveredBy(s', w);
    case Skip => CoveredSkip(s, w);
    case Pick => CoveredBy(s', w);
    case ScanEnd => KeepCovered(s, s', w);
  }

  lemma CoveredMain(s: System, m: MainOp)
    requires Structure(s) && Covered(s) && CanMain(s, m)
    ensures Covered(ApplyMain(s, m))
  {
    var s' := ApplyMain(s, m);
    match m
    case Start =>
      assert s.workers[0].pc.NotStarted?;
      CoveredBy(s', 0);
    case CallRoot =>
      if s.useCaller {
        KeepCovered(s, s', 0);
      }
    case _ =>
      assert s'.workers == s.workers[0 := s'.workers[0]];
      KeepCovered(s, s', 0);
  }

  lemma CoveredUser(s: System, u: UserOp)
    requires Structure(s) && Covered(s) && CanUser(s, u) && DisciplinedUser(s, u)
    ensures Covered(ApplyUser(s, u))
  {
    match u
    case Push(caller, e) => CoveredPush(s, caller, e);
    case SwitchTo(w, t) => CoveredBy(ApplyUser(s, u), w);
    case _ =>
      assert s.workers == s.workers[0 := s.workers[0]];
      KeepCovered(s, ApplyUser(s, u), 0);
  }

  lemma CoveredRun(s: System, w: WorkerId, op: RunOp)
    requires CanRun(s, w, op)
    ensures Covered(ApplyRun(s, w, op))
  {
    CoveredBy(ApplyRun(s, w, op), w);
  }

  lemma CoveredSettle(s: System, w: WorkerId, op: SettleOp)
    requires CanSettle(s, w, op)
    ensures Covered(ApplySettle(s, w, op))
  {
    CoveredBy(ApplySettle(s, w, op), w);
  }

  lemma CoveredIdle(s: System, w: WorkerId, op: IdleOp)
    requires Covered(s) && CanIdle(s, w, op)
    ensures Covered(ApplyIdle(s, w, op))
  {
    KeepCovered(s, ApplyIdle(s, w, op), w);
  }

  lemma CoveredStep(s: System, a: Action)
    requires Structure(s) && Covered(s) && CanStep(s, a) && Disciplined(s, a)
    ensures Covered(Apply(s, a))
  {
    match a
    case Main(m) => CoveredMain(s, m);
    case User(u) => CoveredUser(s, u);
    case Scan(w, op) => CoveredScan(s, w, op);
    case Run(w, op) => CoveredRun(s, w, op);
    case Settle(w, op) => CoveredSettle(s, w, op);
    case Idle(w, op) => CoveredIdle(s, w, op);
  }

  // ---- Group 6: references and landings -----------------------------------------------------------

  /** A fiber whose stack is in use keeps itself alive. */
  ghost predicate SelfKept(s: System) {
    forall f :: 0 <= f < |s.fibers| && !s.fibers[f].state.Resettable() ==> s.fibers[f].selfRef
  }

  ghost predicate PinnedTo(q: seq<Entry>, f: FiberId, t: WorkerId) {
    exists k :: 0 <= k < |q| && q[k] == Entry(FiberTask(f), t)
  }

  /** The fiber is in the hands of worker `t`, which has not resumed it yet. */
  ghost predicate TakenBy(s: System, f: FiberId, t: WorkerId) {
    t < |s.workers|
    && (s.workers[t].pc == Handling(f, Taken, false) || s.workers[t].pc == Handling(f, Entering, false))
  }

  /** A fiber inside `switchTo(t)` is queued for `t` only, or already taken by `t`. */
  ghost predicate Landings(s: System) {
    forall f :: 0 <= f < |s.fibers| && s.fibers[f].landing.Some? ==>
      var t := s.fibers[f].landing.value;
      && (s.fibers[f].state == EXEC || s.fibers[f].state == HOLD)
      && (PinnedTo(s.queue, f, t) || TakenBy(s, f, t))
  }

  lemma SelfKeptRun(s: System, w: WorkerId, op: RunOp)
    requires SelfKept(s) && CanRun(s, w, op) && WorkerFits(s, w, s.workers[w])
    ensures SelfKept(ApplyRun(s, w, op))
  {
  }

  lemma SelfKeptSettle(s: System, w: WorkerId, op: SettleOp)
    requires SelfKept(s) && CanSettle(s, w, op) && WorkerFits(s, w, s.workers[w])
    ensures SelfKept(ApplySettle(s, w, op))
  {
  }

  lemma SelfKeptUser(s: System, u: UserOp)
    requires SelfKept(s) && CanUser(s, u)
    ensures SelfKept(ApplyUser(s, u))
  {
  }

  lemma SelfKeptStep(s: System, a: Action)
    requires Shape(s) && SelfKept(s) && CanStep(s, a)
    ensures SelfKept(Apply(s, a))
  {
    match a
    case Run(w, op) => SelfKeptRun(s, w, op);
    case Settle(w, op) => SelfKeptSettle(s, w, op);
    case User(u) => SelfKeptUser(s, u);
    case _ => assert Apply(s, a).fibers == s.fibers;
  }

  /** A step that leaves the queue alone keeps the landings if the worker keeps what it has taken. */
  lemma KeepLandings(s: System, s': System, w: WorkerId)
    requires Landings(s) && s.queue == s'.queue && |s.fibers| <= |s'.fibers|
    requires w < |s.workers| == |s'.workers| && s'.workers == s.workers[w := s'.workers[w]]
    requires forall f :: 0 <= f < |s'.fibers| && s'.fibers[f].landing.Some? ==>
               f < |s.fibers| && s'.fibers[f].landing == s.fibers[f].landing
               && (s'.fibers[f].state == EXEC || s'.fibers[f].state == HOLD)
               && (TakenBy(s, f, w) ==> TakenBy(s', f, w))
    ensures Landings(s')
  {
    forall f | 0 <= f < |s'.fibers| && s'.fibers[f].landing.Some?
      ensures var t := s'.fibers[f].landing.value; PinnedTo(s'.queue, f, t) || TakenBy(s', f, t)
    {
      var t := s.fibers[f].landing.value;
      assert t != w && t < |s.workers| ==> s'.workers[t] == s.workers[t];
    }
  }

  lemma PinnedAppend(q: seq<Entry>, e: Entry)
    ensures forall f: FiberId, t: WorkerId :: PinnedTo(q, f, t) ==> PinnedTo(q + [e], f, t)
  {
    forall f: FiberId, t: WorkerId | PinnedTo(q, f, t) ensures PinnedTo(q + [e], f, t) {
      var k :| 0 <= k < |q| && q[k] == Entry(FiberTask(f), t);
      assert (q + [e])[k] == q[k];
    }
  }

  lemma LandingsUser(s: System, u: UserOp)
    requires Structure(s) && Landings(s) && CanUser(s, u) && DisciplinedUser(s, u)
    ensures Landings(ApplyUser(s, u))
  {
    var s' := ApplyUser(s, u);
    assert s.workers == s.workers[0 := s.workers[0]];
    match u
    case Push(caller, e) => PinnedAppend(s.queue, e);
    case SwitchTo(w, t) =>
      var f := s.workers[w].pc.f;
      PinnedAppend(s.queue, Entry(FiberTask(f), t));
      assert s'.queue[|s.queue|] == Entry(FiberTask(f), t);
    case _ => KeepLandings(s, s', 0);
  }

  lemma LandingsPick(s: System, w: WorkerId)
    requires Structure(s) && Landings(s) && CanScan(s, w, Pick)
    ensures Landings(ApplyScan(s, w, Pick))
  {
    var s' := ApplyScan(s, w, Pick);
    var i := s.workers[w].pc.i;
    forall f | 0 <= f < |s'.fibers| && s'.fibers[f].landing.Some?
      ensures var t := s'.fibers[f].landing.value; PinnedTo(s'.queue, f, t) || TakenBy(s', f, t)
    {
      var t := s.fibers[f].landing.value;
      if PinnedTo(s.queue, f, t) {
        var k :| 0 <= k < |s.queue| && s.queue[k] == Entry(FiberTask(f), t);
        if k != i {
          assert s'.queue[if k < i then k else k - 1] == s.queue[k];
        }
      } else {
        assert t != w;
      }
    }
  }

  lemma LandingsLeave(s: System, w: WorkerId, how: Exit)
    requires Landings(s) && CanRun(s, w, Leave(how)) && DisciplinedRun(s, w, Leave(how))
    requires OneHolder(s) && WorkerFits(s, w, s.workers[w])
    ensures Landings(ApplyRun(s, w, Leave(how)))
  {
    var f := s.workers[w].pc.f;
    if s.fibers[f].landing.Some? {
      var t := s.fibers[f].landing.value;
      assert Holds(s.workers[w], f) && !TakenBy(s, f, t);
      var k :| 0 <= k < |s.queue| && s.queue[k] == Entry(FiberTask(f), t);
      assert IsFiber(s.queue[k], f);
    }
    KeepLandings(s, ApplyRun(s, w, Leave(how)), w);
  }

  lemma LandingsPrepare(s: System, w: WorkerId)
    requires Landings(s) && CanRun(s, w, Prepare) && WorkerFits(s, w, s.workers[w])
    ensures Landings(ApplyRun(s, w, Prepare))
  {
    KeepLandings(s, ApplyRun(s, w, Prepare), w);
  }

  lemma LandingsRun(s: System, w: WorkerId, op: RunOp)
    requires Landings(s) && CanRun(s, w, op) && DisciplinedRun(s, w, op)
    requires OneHolder(s) && WorkerFits(s, w, s.workers[w])
    ensures Landings(ApplyRun(s, w, op))
  {
    match op
    case Leave(how) => LandingsLeave(s, w, how);
    case Prepare => LandingsPrepare(s, w);
    case _ => KeepLandings(s, ApplyRun(s, w, op), w);
  }

  lemma LandingsRequeue(s: System, w: WorkerId)
    requires Landings(s) && CanSettle(s, w, Requeue) && WorkerFits(s, w, s.workers[w])
    ensures Landings(ApplySettle(s, w, Requeue))
  {
    var s' := ApplySettle(s, w, Requeue);
    PinnedAppend(s.queue, Entry(FiberTask(s.workers[w].pc.f), -1));
    forall f | 0 <= f < |s'.fibers| && s'.fibers[f].landing.Some?
      ensures var t := s'.fibers[f].landing.value; PinnedTo(s'.queue, f, t) || TakenBy(s', f, t)
    {
      assert s.fibers[f].landing.value == w ==> !TakenBy(s, f, w);
    }
  }

  lemma LandingsSettle(s: System, w: WorkerId, op: SettleOp)
    requires Landings(s) && CanSettle(s, w, op) && WorkerFits(s, w, s.workers[w])
    ensures Landings(ApplySettle(s, w, op))
  {
    if op == Requeue {
      LandingsRequeue(s, w);
    } else {
      KeepLandings(s, ApplySettle(s, w, op), w);
    }
  }

  lemma LandingsMain(s: System, m: MainOp)
    requires Structure(s) && Landings(s) && CanMain(s, m)
    ensures Landings(ApplyMain(s, m))
  {
    var s' := ApplyMain(s, m);
    assert WorkerFits(s, 0, s.workers[0]) && MainFits(s, 0, s.workers[0]);
    if m == Start {
      assert forall w :: 0 <= w < |s.workers| ==> s.workers[w].pc.NotStarted?;
    } else {
      KeepLandings(s, s', 0);
    }
  }

  lemma LandingsScan(s: System, w: WorkerId, op: ScanOp)
    requires Structure(s) && Landings(s) && CanScan(s, w, op)
    ensures Landings(ApplyScan(s, w, op))
  {
    if op == Pick {
      LandingsPick(s, w);
    } else {
      KeepLandings(s, ApplyScan(s, w, op), w);
    }
  }

  lemma LandingsIdle(s: System, w: WorkerId, op: IdleOp)
    requires Landings(s) && CanIdle(s, w, op)
    ensures Landings(ApplyIdle(s, w, op))
  {
    KeepLandings(s, ApplyIdle(s, w, op), w);
  }

  lemma LandingsStep(s: System, a: Action)
    requires Structure(s) && Landings(s) && CanStep(s, a) && Disciplined(s, a)
    ensures Landings(Apply(s, a))
  {
    match a
    case Main(m) => LandingsMain(s, m);
    case User(u) => LandingsUser(s, u);
    case Scan(w, op) => LandingsScan(s, w, op);
    case Run(w, op) => LandingsRun(s, w, op);
    case Settle(w, op) =>
      assert WorkerFits(s, w, s.workers[w]);
      LandingsSettle(s, w, op);
    case Idle(w, op) => LandingsIdle(s, w, op);
  }
}
