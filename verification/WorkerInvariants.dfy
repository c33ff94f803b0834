/** What every step of a disciplined run keeps, in five groups proved one after another. */
module WorkerInvariants {
  import opened Options
  import opened FiberStates
  import opened Bags
  import opened WorkerSteps

  // ---- Group 1: program counters, the lock, and the states that each phase allows ---------------

  /** The states that a fiber may have in each phase of its handling. */
  ghost predicate PhaseFits(st: State, phase: Phase, viaCb: bool) {
    match phase
    case Taken => st != EXEC && !viaCb
    case Entering => if viaCb then st == INIT else st == INIT || st == HOLD || st == READY
    case Running => st == EXEC
    case Leaving | Returned | Counted => st == EXEC || st == READY || st.Dead()
    case Requeueing => st == READY
    case Parking => st == EXEC
    case Recycling => st.Dead() && viaCb
  }

  ghost predicate IdleFits(wk: Worker) {
    match wk.pc
    case NotStarted | Skipped => wk.idle == INIT
    case Exited => wk.idle == TERM
    case IdleEntering => wk.idle == INIT || wk.idle == HOLD
    case IdleRunning => wk.idle == EXEC
    case IdleReturned | IdleParking => wk.idle == EXEC || wk.idle == TERM
    case _ => wk.idle == INIT || wk.idle == HOLD || wk.idle == TERM
  }

  ghost predicate WorkerFits(s: System, w: WorkerId, wk: Worker) {
    && IdleFits(wk)
    && (wk.pc.Scanning? ==> s.lock == Some(w) && wk.pc.i <= |s.queue|)
    && (wk.pc.Handling? ==>
          wk.pc.f < |s.fibers|
          && PhaseFits(s.fibers[wk.pc.f].state, wk.pc.phase, wk.pc.viaCb)
          && (wk.pc.viaCb <==> wk.cbFiber == Some(wk.pc.f)))
    && (wk.cbFiber.Some? ==>
          wk.cbFiber.value < |s.fibers|
          && ((wk.pc.Handling? && wk.pc.viaCb)
              || (s.fibers[wk.cbFiber.value].state == INIT && s.fibers[wk.cbFiber.value].body == None)))
  }

  /** start() and stop() against the flags and one worker's progress. */
  ghost predicate MainFits(s: System, w: WorkerId, wk: Worker) {
    && (wk.pc.NotStarted? <==> s.main.Setup? || (s.useCaller && w == 0 && !s.main.Joining?))
    && (wk.pc.Skipped? ==> s.main.Joining?)
    && (wk.idle == TERM ==> s.autoStop && s.stopping)
  }

  ghost predicate FlagsFit(s: System) {
    && (s.autoStop <==> !s.main.Setup? && !s.main.Started?)
    && (s.main.StopSet? || s.main.Joining? ==> s.stopping)
  }

  ghost predicate DistinctFibers(q: seq<Entry>) {
    forall i, j :: 0 <= i < j < |q| && q[i].task.FiberTask? ==> q[i].task != q[j].task
  }

  ghost predicate QueueFits(s: System) {
    && (forall k :: 0 <= k < |s.queue| && s.queue[k].task.FiberTask? ==> s.queue[k].task.f < |s.fibers|)
    && DistinctFibers(s.queue)
  }

  ghost predicate Shape(s: System) {
    && 0 < |s.workers|
    && (forall w :: 0 <= w < |s.workers| ==> WorkerFits(s, w, s.workers[w]) && MainFits(s, w, s.workers[w]))
    && (s.lock.Some? ==> s.lock.value < |s.workers| && s.workers[s.lock.value].pc.Scanning?)
    && QueueFits(s) && FlagsFit(s)
  }

  // ---- Group 2: who holds a fiber ---------------------------------------------------------------

  /** No fiber is held by two workers. */
  ghost predicate OneHolder(s: System) {
    forall w, v, f :: 0 <= w < |s.workers| && 0 <= v < |s.workers| && w != v && Holds(s.workers[w], f)
      ==> !Holds(s.workers[v], f)
  }

  /** A fiber that is queued while held is EXEC, so the scans skip it. */
  ghost predicate QueuedHeldIsExec(s: System) {
    forall w, f :: 0 <= w < |s.workers| && 0 <= f < |s.fibers| && Holds(s.workers[w], f) && Queued(s, f)
      ==> s.fibers[f].state == EXEC
  }

  ghost predicate Held(s: System, f: FiberId) {
    exists w :: 0 <= w < |s.workers| && Holds(s.workers[w], f)
  }

  /** An EXEC fiber is held by a live worker; a READY fiber is held or queued. */
  ghost predicate RunnableIsKept(s: System) {
    forall f :: 0 <= f < |s.fibers| ==>
      && (s.fibers[f].state == EXEC ==> Held(s, f))
      && (s.fibers[f].state == READY ==> Held(s, f) || Queued(s, f))
  }

  ghost predicate Ownership(s: System) {
    OneHolder(s) && QueuedHeldIsExec(s) && RunnableIsKept(s)
  }

  ghost predicate Structure(s: System) { Shape(s) && Ownership(s) }

  // ---- Steps of one worker ------------------------------------------------------------------------

  /** What the step lemmas below need to know about the worker that moves. */
  ghost predicate Local(s: System, w: WorkerId) {
    && w < |s.workers| && WorkerFits(s, w, s.workers[w]) && MainFits(s, w, s.workers[w])
    && (s.lock == Some(w) ==> s.workers[w].pc.Scanning?)
    && (forall g :: 0 <= g < |s.fibers| && Holds(s.workers[w], g) && Queued(s, g) ==> s.fibers[g].state == EXEC)
  }

  /** The worker changes only its own record, fibers that it holds, and the queue while no one else scans. */
  ghost predicate Frame(s: System, s': System, w: WorkerId) {
    && w < |s.workers| == |s'.workers| && s'.workers == s.workers[w := s'.workers[w]]
    && |s.fibers| <= |s'.fibers|
    && (forall g :: 0 <= g < |s.fibers| && !Holds(s.workers[w], g) ==> s'.fibers[g] == s.fibers[g])
    && (forall g :: |s.fibers| <= g < |s'.fibers| ==> s'.fibers[g].state == INIT && !Queued(s', g))
    && (s'.queue == s.queue || s.lock == None || s.lock == Some(w))
    && (s'.lock == s.lock || (s.lock == Some(w) && s'.lock == None) || (s.lock == None && s'.lock == Some(w)))
    && (s'.lock == Some(w) ==> s'.workers[w].pc.Scanning?)
    && s'.main == s.main && s'.useCaller == s.useCaller && s'.stopping == s.stopping && s'.autoStop == s.autoStop
    && WorkerFits(s', w, s'.workers[w]) && MainFits(s', w, s'.workers[w])
    && (s'.queue == s.queue || QueueFits(s'))
  }

  /** How the worker's pointers and the queue may change together. */
  ghost predicate Moves(s: System, s': System, w: WorkerId)
    requires w < |s.workers| == |s'.workers| && |s.fibers| <= |s'.fibers|
  {
    // what is newly held is new, or was taken from the queue
    && (forall g: FiberId :: Holds(s'.workers[w], g) && !Holds(s.workers[w], g) ==>
          |s.fibers| <= g < |s'.fibers|
          || (g < |s.fibers| && Queued(s, g) && !Queued(s', g) && s.fibers[g].state != EXEC))
    // what is dropped is not running, and a READY fiber is dropped into the queue
    && (forall g :: 0 <= g < |s.fibers| && Holds(s.workers[w], g) && !Holds(s'.workers[w], g) ==>
          s'.fibers[g].state != EXEC && (s'.fibers[g].state == READY ==> Queued(s', g)))
    && (forall g :: 0 <= g < |s'.fibers| && Holds(s'.workers[w], g) && Queued(s', g) ==>
          s'.fibers[g].state == EXEC)
    && (forall g: FiberId :: Queued(s', g) && !Queued(s, g) ==> Holds(s.workers[w], g))
    && (forall g: FiberId :: Queued(s, g) && !Queued(s', g) ==> Holds(s'.workers[w], g))
  }

  ghost predicate LocalStep(s: System, s': System, w: WorkerId) { Frame(s, s', w) && Moves(s, s', w) }

  lemma LocalOfStructure(s: System, w: WorkerId)
    requires Structure(s) && w < |s.workers|
    ensures Local(s, w)
  {
  }

  lemma KeepShape(s: System, s': System, w: WorkerId)
    requires Shape(s) && OneHolder(s) && Frame(s, s', w)
    ensures Shape(s')
  {
    forall v | 0 <= v < |s.workers| && v != w
      ensures WorkerFits(s', v, s'.workers[v]) && MainFits(s', v, s'.workers[v])
    {
      var wk := s.workers[v];
      assert s'.workers[v] == wk && WorkerFits(s, v, wk) && MainFits(s, v, wk);
      if wk.pc.Handling? {
        assert Holds(wk, wk.pc.f) && !Holds(s.workers[w], wk.pc.f);
      }
      if wk.cbFiber.Some? {
        assert Holds(wk, wk.cbFiber.value) && !Holds(s.workers[w], wk.cbFiber.value);
      }
    }
  }

  lemma KeepOwnership(s: System, s': System, w: WorkerId)
    requires Structure(s) && LocalStep(s, s', w)
    ensures Ownership(s')
  {
    forall v, g: FiberId | 0 <= v < |s.workers| && Holds(s.workers[v], g) ensures g < |s.fibers| {
      assert WorkerFits(s, v, s.workers[v]);
    }
    forall g | 0 <= g < |s'.fibers|
      ensures s'.fibers[g].state == EXEC ==> Held(s', g)
      ensures s'.fibers[g].state == READY ==> Held(s', g) || Queued(s', g)
    {
      if g < |s.fibers| && !Holds(s.workers[w], g) && Held(s, g) {
        var v :| 0 <= v < |s.workers| && Holds(s.workers[v], g);
        assert Holds(s'.workers[v], g);
      }
      if Holds(s'.workers[w], g) {
        assert Held(s', g);
      }
    }
  }

  lemma KeepStructure(s: System, s': System, w: WorkerId)
    requires Structure(s) && LocalStep(s, s', w)
    ensures Structure(s')
  {
    KeepShape(s, s', w);
    KeepOwnership(s, s', w);
  }

  lemma AppendQueue(q: seq<Entry>, e: Entry)
    ensures forall f :: InQueue(q + [e], f) <==> InQueue(q, f) || IsFiber(e, f)
    ensures DistinctFibers(q) && (e.task.FiberTask? ==> !InQueue(q, e.task.f)) ==> DistinctFibers(q + [e])
  {
    var q' := q + [e];
    forall f ensures InQueue(q', f) <==> InQueue(q, f) || IsFiber(e, f) {
      if InQueue(q, f) {
        var k :| 0 <= k < |q| && IsFiber(q[k], f);
        assert IsFiber(q'[k], f);
      }
      if IsFiber(e, f) {
        assert IsFiber(q'[|q|], f);
      }
    }
    if e.task.FiberTask? && !InQueue(q, e.task.f) {
      assert forall k :: 0 <= k < |q| ==> !IsFiber(q[k], e.task.f);
    }
  }

  lemma RemoveQueue(q: seq<Entry>, i: nat)
    requires i < |q| && DistinctFibers(q)
    ensures DistinctFibers(q[..i] + q[i + 1..])
    ensures forall f :: InQueue(q[..i] + q[i + 1..], f) <==> InQueue(q, f) && !IsFiber(q[i], f)
  {
    var q' := q[..i] + q[i + 1..];
    assert forall k :: 0 <= k < |q'| ==> q'[k] == q[if k < i then k else k + 1];
    forall f ensures InQueue(q', f) <==> InQueue(q, f) && !IsFiber(q[i], f) {
      if InQueue(q, f) && !IsFiber(q[i], f) {
        var k :| 0 <= k < |q| && IsFiber(q[k], f);
        assert IsFiber(q'[if k < i then k else k - 1], f);
      }
      if InQueue(q', f) {
        var k :| 0 <= k < |q'| && IsFiber(q'[k], f);
        assert IsFiber(q[if k < i then k else k + 1], f);
      }
    }
  }

  lemma InitStructure(s: System)
    requires Init(s)
    ensures Structure(s)
  {
  }

  /** Steps that change neither what the workers hold, nor the queue, nor a fiber's state. */
  lemma SameHoldings(s: System, s': System)
    requires |s.workers| == |s'.workers| && s.queue == s'.queue && |s.fibers| == |s'.fibers|
    requires forall f :: 0 <= f < |s.fibers| ==> s.fibers[f].state == s'.fibers[f].state
    requires forall w, f :: 0 <= w < |s.workers| ==> Holds(s.workers[w], f) == Holds(s'.workers[w], f)
    requires Ownership(s)
    ensures Ownership(s')
  {
    forall f | 0 <= f < |s.fibers| && Held(s, f) ensures Held(s', f) {
      var w :| 0 <= w < |s.workers| && Holds(s.workers[w], f);
      assert Holds(s'.workers[w], f);
    }
  }

  lemma StructureMain(s: System, m: MainOp)
    requires Structure(s) && CanMain(s, m)
    ensures Structure(ApplyMain(s, m))
  {
    var s' := ApplyMain(s, m);
    match m {
      case Start =>
        assert forall w :: 0 <= w < |s.workers| ==>
            s'.workers[w] == s.workers[w] || s'.workers[w] == s.workers[w].(pc := Top);
      case SetAutoStop =>
      case SetStopping =>
      case CallRoot =>
    }
    SameHoldings(s, s');
  }

  lemma KeepHeld(s: System, s': System)
    requires s.workers == s'.workers
    ensures forall f :: Held(s, f) ==> Held(s', f)
  {
    forall f | Held(s, f) ensures Held(s', f) {
      var w :| 0 <= w < |s.workers| && Holds(s.workers[w], f);
      assert Holds(s'.workers[w], f);
    }
  }

  /** A new entry, for a fiber that is not queued and that nobody holds except while it is EXEC. */
  lemma StructureAppend(s: System, e: Entry)
    requires Structure(s) && s.lock == None
    requires e.task.FiberTask? ==>
      && e.task.f < |s.fibers| && !Queued(s, e.task.f)
      && (Held(s, e.task.f) ==> s.fibers[e.task.f].state == EXEC)
    ensures Structure(s.(queue := s.queue + [e]))
  {
    AppendQueue(s.queue, e);
    KeepHeld(s, s.(queue := s.queue + [e]));
    assert forall w, f :: 0 <= w < |s.workers| && Holds(s.workers[w], f) ==> Held(s, f);
  }

  /** Changes of fibers that leave their states and functions alone. */
  lemma StructureFibers(s: System, fibers: seq<Fiber>)
    requires Structure(s) && |fibers| == |s.fibers|
    requires forall f :: 0 <= f < |fibers| ==>
      fibers[f].state == s.fibers[f].state && fibers[f].body == s.fibers[f].body
    ensures Structure(s.(fibers := fibers))
  {
    SameHoldings(s, s.(fibers := fibers));
  }

  lemma StructureRecord(s: System, submitted: multiset<Id>)
    requires Structure(s)
    ensures Structure(s.(submitted := submitted))
  {
    SameHoldings(s, s.(submitted := submitted));
  }

  lemma StructurePush(s: System, caller: Option<WorkerId>, e: Entry)
    requires Structure(s) && CanUser(s, Push(caller, e)) && DisciplinedUser(s, Push(caller, e))
    ensures Structure(ApplyUser(s, Push(caller, e)))
  {
    StructureAppend(s, e);
    StructureRecord(s.(queue := s.queue + [e]), Record(s.submitted, QueuedCallback(e)));
  }

  lemma StructureSwitchTo(s: System, w: WorkerId, t: WorkerId)
    requires Structure(s) && CanUser(s, SwitchTo(w, t)) && DisciplinedUser(s, SwitchTo(w, t))
    ensures Structure(ApplyUser(s, SwitchTo(w, t)))
  {
    var f := s.workers[w].pc.f;
    var s' := SetFiber(s, f, s.fibers[f].(landing := Some(t)));
    assert WorkerFits(s, w, s.workers[w]);
    StructureFibers(s, s'.fibers);
    StructureAppend(s', Entry(FiberTask(f), t));
  }

  lemma StructureNewFiber(s: System, c: Id)
    requires Structure(s)
    ensures Structure(ApplyUser(s, NewFiber(c)))
  {
    KeepHeld(s, ApplyUser(s, NewFiber(c)));
    assert !Queued(s, |s.fibers|);
  }

  /** Keeping or dropping a pointer changes no state. */
  lemma StructurePointers(s: System, u: UserOp)
    requires Structure(s) && CanUser(s, u) && (u.TakeRef? || u.DropRef?)
    ensures Structure(ApplyUser(s, u))
  {
    StructureFibers(s, ApplyUser(s, u).fibers);
  }

  lemma StructureUser(s: System, u: UserOp)
    requires Structure(s) && CanUser(s, u) && DisciplinedUser(s, u)
    ensures Structure(ApplyUser(s, u))
  {
    match u
    case Push(caller, e) => StructurePush(s, caller, e);
    case SwitchTo(w, t) => StructureSwitchTo(s, w, t);
    case NewFiber(c) => StructureNewFiber(s, c);
    case _ => StructurePointers(s, u);
  }

  // One lemma for each step of a worker, after two that several of them share.

  lemma LocalPhase(s: System, w: WorkerId, phase: Phase)
    requires Local(s, w) && s.workers[w].pc.Handling?
    requires PhaseFits(s.fibers[s.workers[w].pc.f].state, phase, s.workers[w].pc.viaCb)
    ensures LocalStep(s, SetPhase(s, w, phase), w)
  {
  }

  lemma LocalDiscard(s: System, w: WorkerId)
    requires Local(s, w) && s.workers[w].pc.Handling? && !s.workers[w].pc.viaCb
    requires s.fibers[s.workers[w].pc.f].state.Dead()
    ensures LocalStep(s, EndRound(s, w, false), w)
  {
  }

  lemma LocalCounters(s: System, s': System, s'': System, w: WorkerId)
    requires LocalStep(s, s', w)
    requires s'' == s'.(active := s''.active, idleCount := s''.idleCount, started := s''.started)
    ensures LocalStep(s, s'', w)
  {
  }

  lemma LocalLock(s: System, w: WorkerId)
    requires Local(s, w) && CanScan(s, w, Lock)
    ensures LocalStep(s, ApplyScan(s, w, Lock), w)
  {
  }

  lemma LocalSkip(s: System, w: WorkerId)
    requires Local(s, w) && CanScan(s, w, Skip)
    ensures LocalStep(s, ApplyScan(s, w, Skip), w)
  {
  }

  lemma FramePick(s: System, w: WorkerId)
    requires Local(s, w) && QueueFits(s) && CanScan(s, w, Pick)
    ensures Frame(s, ApplyScan(s, w, Pick), w)
  {
    RemoveQueue(s.queue, s.workers[w].pc.i);
  }

  lemma LocalPick(s: System, w: WorkerId)
    requires Local(s, w) && QueueFits(s) && CanScan(s, w, Pick)
    ensures LocalStep(s, ApplyScan(s, w, Pick), w)
  {
    FramePick(s, w);
    RemoveQueue(s.queue, s.workers[w].pc.i);
  }

  lemma LocalScanEnd(s: System, w: WorkerId)
    requires Local(s, w) && CanScan(s, w, ScanEnd)
    ensures LocalStep(s, ApplyScan(s, w, ScanEnd), w)
  {
  }

  lemma LocalCheck(s: System, w: WorkerId)
    requires Local(s, w) && CanRun(s, w, Check)
    ensures LocalStep(s, ApplyRun(s, w, Check), w)
  {
    if Hand(s, w).state.Dead() {
      LocalDiscard(s, w);
      LocalCounters(s, EndRound(s, w, false), ApplyRun(s, w, Check), w);
    } else {
      LocalPhase(s, w, Entering);
    }
  }

  lemma LocalReuse(s: System, w: WorkerId)
    requires Local(s, w) && CanRun(s, w, Prepare) && s.workers[w].cbFiber.Some?
    ensures LocalStep(s, ApplyRun(s, w, Prepare), w)
  {
  }

  lemma LocalAllocate(s: System, w: WorkerId)
    requires Local(s, w) && QueueFits(s) && CanRun(s, w, Prepare) && s.workers[w].cbFiber.None?
    ensures LocalStep(s, ApplyRun(s, w, Prepare), w)
  {
    assert !Queued(s, |s.fibers|);
  }

  lemma LocalPrepare(s: System, w: WorkerId)
    requires Local(s, w) && QueueFits(s) && CanRun(s, w, Prepare)
    ensures LocalStep(s, ApplyRun(s, w, Prepare), w)
  {
    if s.workers[w].cbFiber.Some? {
      LocalReuse(s, w);
    } else {
      LocalAllocate(s, w);
    }
  }

  lemma LocalEnter(s: System, w: WorkerId)
    requires Local(s, w) && CanRun(s, w, Enter)
    ensures LocalStep(s, ApplyRun(s, w, Enter), w)
  {
  }

  lemma LocalLeave(s: System, w: WorkerId, how: Exit)
    requires Local(s, w) && CanRun(s, w, Leave(how)) && DisciplinedRun(s, w, Leave(how))
    ensures LocalStep(s, ApplyRun(s, w, Leave(how)), w)
  {
  }

  lemma LocalSwapBack(s: System, w: WorkerId)
    requires Local(s, w) && CanRun(s, w, SwapBack)
    ensures LocalStep(s, ApplyRun(s, w, SwapBack), w)
  {
    LocalPhase(s, w, Returned);
  }

  lemma LocalDecrement(s: System, w: WorkerId)
    requires Local(s, w) && CanSettle(s, w, Decrement)
    ensures LocalStep(s, ApplySettle(s, w, Decrement), w)
  {
    LocalPhase(s, w, Counted);
    LocalCounters(s, SetPhase(s, w, Counted), ApplySettle(s, w, Decrement), w);
  }

  lemma LocalInspect(s: System, w: WorkerId)
    requires Local(s, w) && CanSettle(s, w, Inspect)
    ensures LocalStep(s, ApplySettle(s, w, Inspect), w)
  {
    var st := Hand(s, w).state;
    if st == READY {
      LocalPhase(s, w, Requeueing);
    } else if !st.Dead() {
      LocalPhase(s, w, Parking);
    } else if s.workers[w].pc.viaCb {
      LocalPhase(s, w, Recycling);
    } else {
      LocalDiscard(s, w);
    }
  }

  lemma LocalRequeue(s: System, w: WorkerId)
    requires Local(s, w) && QueueFits(s) && CanSettle(s, w, Requeue)
    ensures LocalStep(s, ApplySettle(s, w, Requeue), w)
  {
    AppendQueue(s.queue, Entry(FiberTask(s.workers[w].pc.f), -1));
  }

  lemma LocalPark(s: System, w: WorkerId)
    requires Local(s, w) && CanSettle(s, w, Park)
    ensures LocalStep(s, ApplySettle(s, w, Park), w)
  {
  }

  lemma LocalRecycle(s: System, w: WorkerId)
    requires Local(s, w) && CanSettle(s, w, Recycle)
    ensures LocalStep(s, ApplySettle(s, w, Recycle), w)
  {
  }

  lemma LocalExit(s: System, w: WorkerId)
    requires Local(s, w) && CanIdle(s, w, IdleStart) && s.workers[w].idle == TERM
    ensures LocalStep(s, SetPc(s, w, Exited), w)
  {
  }

  lemma LocalIdleBegin(s: System, w: WorkerId)
    requires Local(s, w) && CanIdle(s, w, IdleStart) && s.workers[w].idle != TERM
    ensures LocalStep(s, SetPc(s, w, IdleEntering), w)
  {
  }

  lemma LocalIdleStart(s: System, w: WorkerId)
    requires Local(s, w) && CanIdle(s, w, IdleStart)
    ensures LocalStep(s, ApplyIdle(s, w, IdleStart), w)
  {
    if s.workers[w].idle == TERM {
      LocalExit(s, w);
    } else {
      LocalIdleBegin(s, w);
      LocalCounters(s, SetPc(s, w, IdleEntering), ApplyIdle(s, w, IdleStart), w);
    }
  }

  lemma LocalIdleEnter(s: System, w: WorkerId)
    requires Local(s, w) && CanIdle(s, w, IdleEnter)
    ensures LocalStep(s, ApplyIdle(s, w, IdleEnter), w)
  {
  }

  lemma LocalIdlePoll(s: System, w: WorkerId)
    requires Local(s, w) && CanIdle(s, w, IdlePoll)
    ensures LocalStep(s, ApplyIdle(s, w, IdlePoll), w)
  {
  }

  lemma LocalIdleDecrement(s: System, w: WorkerId)
    requires Local(s, w) && CanIdle(s, w, IdleDecrement)
    ensures LocalStep(s, ApplyIdle(s, w, IdleDecrement), w)
  {
  }

  lemma LocalIdlePark(s: System, w: WorkerId)
    requires Local(s, w) && CanIdle(s, w, IdlePark)
    ensures LocalStep(s, ApplyIdle(s, w, IdlePark), w)
  {
  }

  lemma StructureScan(s: System, w: WorkerId, op: ScanOp)
    requires Structure(s) && CanScan(s, w, op)
    ensures Structure(ApplyScan(s, w, op))
  {
    LocalOfStructure(s, w);
    match op {
      case Lock => LocalLock(s, w);
      case Skip => LocalSkip(s, w);
      case Pick => LocalPick(s, w);
      case ScanEnd => LocalScanEnd(s, w);
    }
    KeepStructure(s, ApplyScan(s, w, op), w);
  }

  lemma StructureRun(s: System, w: WorkerId, op: RunOp)
    requires Structure(s) && CanRun(s, w, op) && DisciplinedRun(s, w, op)
    ensures Structure(ApplyRun(s, w, op))
  {
    LocalOfStructure(s, w);
    match op {
      case Check => LocalCheck(s, w);
      case Prepare => LocalPrepare(s, w);
      case Enter => LocalEnter(s, w);
      case Leave(how) => LocalLeave(s, w, how);
      case SwapBack => LocalSwapBack(s, w);
    }
    KeepStructure(s, ApplyRun(s, w, op), w);
  }

  lemma StructureSettle(s: System, w: WorkerId, op: SettleOp)
    requires Structure(s) && CanSettle(s, w, op)
    ensures Structure(ApplySettle(s, w, op))
  {
    LocalOfStructure(s, w);
    match op {
      case Decrement => LocalDecrement(s, w);
      case Inspect => LocalInspect(s, w);
      case Requeue => LocalRequeue(s, w);
      case Park => LocalPark(s, w);
      case Recycle => LocalRecycle(s, w);
    }
    KeepStructure(s, ApplySettle(s, w, op), w);
  }

  lemma StructureIdle(s: System, w: WorkerId, op: IdleOp)
    requires Structure(s) && CanIdle(s, w, op)
    ensures Structure(ApplyIdle(s, w, op))
  {
    LocalOfStructure(s, w);
    match op {
      case IdleStart => LocalIdleStart(s, w);
      case IdleEnter => LocalIdleEnter(s, w);
      case IdlePoll => LocalIdlePoll(s, w);
      case IdleDecrement => LocalIdleDecrement(s, w);
      case IdlePark => LocalIdlePark(s, w);
    }
    KeepStructure(s, ApplyIdle(s, w, op), w);
  }

  lemma StructureStep(s: System, a: Action)
    requires Structure(s) && CanStep(s, a) && Disciplined(s, a)
    ensures Structure(Apply(s, a))
  {
    match a
    case Main(m) => StructureMain(s, m);
    case User(u) => StructureUser(s, u);
    case Scan(w, op) => StructureScan(s, w, op);
    case Run(w, op) => StructureRun(s, w, op);
    case Settle(w, op) => StructureSettle(s, w, op);
    case Idle(w, op) => StructureIdle(s, w, op);
  }
}
