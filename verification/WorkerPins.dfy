/**
 Entries that are pinned to a thread (src/scheduler/scheduler.cpp:156-160 and 250-259). The code accepts any thread.
 An entry whose thread is no worker, or a worker that has left, is never taken, and then the scheduler cannot be
 stopped. Here is exactly when the queue is empty after the last worker has left.
 */
module WorkerPins {
  import opened Options
  import opened FiberStates
  import opened Bags
  import opened WorkerHistory
  import opened WorkerSteps
  import opened WorkerInvariants
  import opened WorkerQuantities
  import opened WorkerTheorems

  /** The worker has left, or has made its last scan. */
  predicate Leaving(wk: Worker) { Done(wk) || (wk.pc.IdleCheck? && wk.idle == TERM) }

  /** No worker of that thread will look at the queue again. */
  predicate Gone(s: System, t: int) { t >= |s.workers| || (0 <= t && Leaving(s.workers[t])) }

  // ---- Entries that nobody can take -------------------------------------------------------------------------

  predicate Stuck(s: System, e: Entry) { e in s.queue && Gone(s, e.thread) }

  /** The worker has not left and will not leave by itself. */
  predicate Stays(s: System, w: WorkerId) { w < |s.workers| && !Done(s.workers[w]) && s.workers[w].idle != TERM }

  /** Who is gone stays gone; and if `busy`, who stays goes on staying. */
  ghost predicate Lasting(s: System, s': System, busy: bool) {
    && |s'.workers| == |s.workers|
    && (forall t: int :: Gone(s, t) ==> Gone(s', t))
    && (busy ==> forall w: WorkerId :: Stays(s, w) ==> Stays(s', w))
  }

  lemma LastingWorker(s: System, s': System, w: WorkerId, busy: bool)
    requires w < |s.workers| == |s'.workers| && s'.workers == s.workers[w := s'.workers[w]]
    requires Leaving(s.workers[w]) ==> Leaving(s'.workers[w])
    requires busy && Stays(s, w) ==> Stays(s', w)
    ensures Lasting(s, s', busy)
  {
    forall v: WorkerId | v < |s.workers| && v != w ensures s'.workers[v] == s.workers[v] {}
  }

  lemma LastingMain(s: System, m: MainOp)
    requires CanMain(s, m)
    requires forall w :: 0 <= w < |s.workers| ==> MainFits(s, w, s.workers[w])
    ensures Lasting(s, ApplyMain(s, m), !StoppingNow(s))
  {
    if m == CallRoot {
      assert MainFits(s, 0, s.workers[0]);
    }
  }

  lemma LastingScan(s: System, w: WorkerId, op: ScanOp)
    requires CanScan(s, w, op)
    ensures Lasting(s, ApplyScan(s, w, op), true)
  {
    LastingWorker(s, ApplyScan(s, w, op), w, true);
  }

  lemma LastingRun(s: System, w: WorkerId, op: RunOp)
    requires CanRun(s, w, op)
    ensures Lasting(s, ApplyRun(s, w, op), true)
  {
    LastingWorker(s, ApplyRun(s, w, op), w, true);
  }

  lemma LastingSettle(s: System, w: WorkerId, op: SettleOp)
    requires CanSettle(s, w, op)
    ensures Lasting(s, ApplySettle(s, w, op), true)
  {
    LastingWorker(s, ApplySettle(s, w, op), w, true);
  }

  lemma LastingIdle(s: System, w: WorkerId, op: IdleOp)
    requires CanIdle(s, w, op)
    ensures Lasting(s, ApplyIdle(s, w, op), !StoppingNow(s))
  {
    LastingWorker(s, ApplyIdle(s, w, op), w, !StoppingNow(s));
  }

  lemma LastingStep(s: System, a: Action)
    requires CanStep(s, a)
    requires forall w :: 0 <= w < |s.workers| ==> MainFits(s, w, s.workers[w])
    ensures Lasting(s, Apply(s, a), !StoppingNow(s))
  {
    match a
    case Main(m) => LastingMain(s, m);
    case User(u) => assert Apply(s, a).workers == s.workers;
    case Scan(w, op) => LastingScan(s, w, op);
    case Run(w, op) => LastingRun(s, w, op);
    case Settle(w, op) => LastingSettle(s, w, op);
    case Idle(w, op) => LastingIdle(s, w, op);
  }

  lemma StuckPick(s: System, w: WorkerId, e: Entry)
    requires CanScan(s, w, Pick) && Stuck(s, e)
    ensures e in ApplyScan(s, w, Pick).queue
  {
    var i := s.workers[w].pc.i;
    var k :| 0 <= k < |s.queue| && s.queue[k] == e;
    assert k != i;
    assert ApplyScan(s, w, Pick).queue[if k < i then k else k - 1] == e;
  }

  /** Only a pick takes an entry out of the queue. */
  lemma QueueGrows(s: System, a: Action)
    requires CanStep(s, a) && !(a.Scan? && a.scan == Pick)
    ensures s.queue <= Apply(s, a).queue
  {
    match a
    case User(u) =>
    case Settle(w, op) =>
    case _ => assert Apply(s, a).queue == s.queue;
  }

  lemma StuckStep(s: System, a: Action, e: Entry)
    requires CanStep(s, a) && Stuck(s, e)
    requires forall w :: 0 <= w < |s.workers| ==> MainFits(s, w, s.workers[w])
    ensures Stuck(Apply(s, a), e)
    ensures forall w: WorkerId :: Stays(s, w) ==> Stays(Apply(s, a), w)
  {
    LastingStep(s, a);
    if a.Scan? && a.scan == Pick {
      StuckPick(s, a.w, e);
    } else {
      QueueGrows(s, a);
      var k :| 0 <= k < |s.queue| && s.queue[k] == e;
      assert Apply(s, a).queue[k] == e;
    }
  }

  /**
   An entry pinned to a thread that is no worker, or to a worker that has left, stays in the queue for ever;
   stopping() never becomes true, and no worker that is in its loop by then ever leaves it.
   */
  lemma {:induction false} PinnedElsewhereBlocks(tr: seq<System>, acts: seq<Action>, j: nat, k: nat, e: Entry)
    requires IsRun(tr, acts) && j <= k <= |acts| && Stuck(tr[j], e)
    ensures Stuck(tr[k], e) && !StoppingNow(tr[k])
    ensures forall w: WorkerId :: Stays(tr[j], w) ==> Stays(tr[k], w)
  {
    if j < k {
      PinnedElsewhereBlocks(tr, acts, j, k - 1, e);
      OnRun(tr, acts, k - 1);
      StuckStep(tr[k - 1], acts[k - 1], e);
    }
  }

  // ---- Entries that their workers will take -----------------------------------------------------------------

  predicate ExecTask(s: System, e: Entry) {
    e.task.FiberTask? && e.task.f < |s.fibers| && s.fibers[e.task.f].state == EXEC
  }

  /** A pinned entry at `k`: its worker will look at it and, if that may be too early, will not leave before. */
  predicate Sighted(s: System, k: nat)
    requires k < |s.queue|
  {
    var e := s.queue[k];
    e.thread != -1 ==>
      && 0 <= e.thread < |s.workers| && WillSee(s.workers[e.thread], k)
      && (ExecTask(s, e) ==> s.workers[e.thread].idle != TERM)
  }

  ghost predicate PinsSighted(s: System) { forall k :: 0 <= k < |s.queue| ==> Sighted(s, k) }

  /** A step of one worker that leaves the queue alone and runs no queued fiber. */
  lemma KeepSighted(s: System, s': System, w: WorkerId)
    requires PinsSighted(s) && s'.queue == s.queue
    requires w < |s.workers| == |s'.workers| && s'.workers == s.workers[w := s'.workers[w]]
    requires forall k :: 0 <= k < |s.queue| && s.queue[k].thread == w && Sighted(s, k) ==>
      && WillSee(s'.workers[w], k)
      && (s.workers[w].idle != TERM ==> s'.workers[w].idle != TERM)
    requires forall k :: 0 <= k < |s.queue| && ExecTask(s', s.queue[k]) ==> ExecTask(s, s.queue[k])
    ensures PinsSighted(s')
  {
    forall k | 0 <= k < |s'.queue| ensures Sighted(s', k) {
      assert Sighted(s, k);
      var t := s.queue[k].thread;
      assert t != w && 0 <= t < |s.workers| ==> s'.workers[t] == s.workers[t];
    }
  }

  lemma SightedMain(s: System, m: MainOp)
    requires PinsSighted(s) && CanMain(s, m)
    requires forall w :: 0 <= w < |s.workers| ==> MainFits(s, w, s.workers[w])
    ensures PinsSighted(ApplyMain(s, m))
  {
    var s' := ApplyMain(s, m);
    forall k | 0 <= k < |s'.queue| ensures Sighted(s', k) {
      assert Sighted(s, k);
      if 0 <= s.queue[k].thread {
        assert MainFits(s, s.queue[k].thread, s.workers[s.queue[k].thread]);
      }
    }
  }

  lemma SightedSkip(s: System, w: WorkerId)
    requires PinsSighted(s) && CanScan(s, w, Skip)
    ensures PinsSighted(ApplyScan(s, w, Skip))
  {
    KeepSighted(s, ApplyScan(s, w, Skip), w);
  }

  lemma SightedPick(s: System, w: WorkerId)
    requires PinsSighted(s) && CanScan(s, w, Pick)
    requires forall v :: 0 <= v < |s.workers| ==> WorkerFits(s, v, s.workers[v])
    ensures PinsSighted(ApplyScan(s, w, Pick))
  {
    var s' := ApplyScan(s, w, Pick);
    var i := s.workers[w].pc.i;
    assert WorkerFits(s, w, s.workers[w]);
    forall k | 0 <= k < |s'.queue| ensures Sighted(s', k) {
      var j := if k < i then k else k + 1;
      assert s'.queue[k] == s.queue[j] && Sighted(s, j);
      var t := s.queue[j].thread;
      if 0 <= t && t != w {
        assert WorkerFits(s, t, s.workers[t]) && s'.workers[t] == s.workers[t];
      }
    }
  }

  lemma SightedScan(s: System, w: WorkerId, op: ScanOp)
    requires PinsSighted(s) && CanScan(s, w, op)
    requires forall v :: 0 <= v < |s.workers| ==> WorkerFits(s, v, s.workers[v])
    ensures PinsSighted(ApplyScan(s, w, op))
  {
    match op
    case Skip => SightedSkip(s, w);
    case Pick => SightedPick(s, w);
    case _ => KeepSighted(s, ApplyScan(s, w, op), w);
  }

  /** Entering is the only step that makes a fiber EXEC, and a fiber that is about to be entered is not queued. */
  lemma SightedEnter(s: System, w: WorkerId)
    requires PinsSighted(s) && CanRun(s, w, Enter) && WorkerFits(s, w, s.workers[w]) && QueuedHeldIsExec(s)
    ensures PinsSighted(ApplyRun(s, w, Enter))
  {
    var f := s.workers[w].pc.f;
    assert Holds(s.workers[w], f) && !Queued(s, f);
    forall k | 0 <= k < |s.queue| ensures s.queue[k].task != FiberTask(f) {
      assert !IsFiber(s.queue[k], f);
    }
    KeepSighted(s, ApplyRun(s, w, Enter), w);
  }

  lemma SightedPrepare(s: System, w: WorkerId)
    requires PinsSighted(s) && CanRun(s, w, Prepare) && QueueFits(s)
    ensures PinsSighted(ApplyRun(s, w, Prepare))
  {
    KeepSighted(s, ApplyRun(s, w, Prepare), w);
  }

  lemma SightedRun(s: System, w: WorkerId, op: RunOp)
    requires PinsSighted(s) && CanRun(s, w, op) && QueueFits(s) && QueuedHeldIsExec(s)
    requires WorkerFits(s, w, s.workers[w])
    ensures PinsSighted(ApplyRun(s, w, op))
  {
    match op
    case Enter => SightedEnter(s, w);
    case Prepare => SightedPrepare(s, w);
    case _ => KeepSighted(s, ApplyRun(s, w, op), w);
  }

  lemma SightedSettle(s: System, w: WorkerId, op: SettleOp)
    requires PinsSighted(s) && CanSettle(s, w, op)
    ensures PinsSighted(ApplySettle(s, w, op))
  {
    if op == Requeue {
      var s' := ApplySettle(s, w, op);
      forall k | 0 <= k < |s'.queue| ensures Sighted(s', k) {
        if k < |s.queue| {
          assert Sighted(s, k) && s'.queue[k] == s.queue[k];
        }
      }
    } else {
      KeepSighted(s, ApplySettle(s, w, op), w);
    }
  }

  /** The idle fiber ends only while the queue is empty. */
  lemma SightedIdle(s: System, w: WorkerId, op: IdleOp)
    requires PinsSighted(s) && CanIdle(s, w, op)
    ensures PinsSighted(ApplyIdle(s, w, op))
  {
    KeepSighted(s, ApplyIdle(s, w, op), w);
  }

  // ---- Where a step pins an entry ---------------------------------------------------------------------------

  /** The step queues the entry, and the entry is pinned. */
  predicate Pins(s: System, a: Action, e: Entry) { Queues(s, a, e) && e.thread != -1 }

  /** The step pins no entry to a thread where nobody will look at the queue again. */
  ghost predicate LiveTarget(s: System, a: Action) { forall e :: Pins(s, a, e) ==> !Gone(s, e.thread) }

  /**
   The step does not pin a fiber that is EXEC to a worker that is about to leave. There it depends on timing
   whether the worker's last scan still finds the fiber EXEC.
   */
  ghost predicate Decided(s: System, a: Action) {
    forall e :: Pins(s, a, e) && ExecTask(s, e) && !Gone(s, e.thread) && 0 <= e.thread ==>
      s.workers[e.thread].idle != TERM
  }

  lemma SightedAppend(s: System, e: Entry)
    requires PinsSighted(s) && s.lock == None
    requires forall w :: 0 <= w < |s.workers| ==> WorkerFits(s, w, s.workers[w])
    requires e.thread != -1 ==>
      0 <= e.thread && !Gone(s, e.thread) && (ExecTask(s, e) ==> s.workers[e.thread].idle != TERM)
    ensures PinsSighted(s.(queue := s.queue + [e]))
  {
    var s' := s.(queue := s.queue + [e]);
    forall k | 0 <= k < |s'.queue| ensures Sighted(s', k) {
      if k < |s.queue| {
        assert Sighted(s, k);
      } else if e.thread != -1 {
        assert WorkerFits(s, e.thread, s.workers[e.thread]);
      }
    }
  }

  /** Changes of fibers that make none EXEC. */
  lemma SightedFibers(s: System, s': System)
    requires PinsSighted(s) && s'.queue == s.queue && s'.workers == s.workers && QueueFits(s)
    requires forall f :: 0 <= f < |s.fibers| ==> f < |s'.fibers| && s'.fibers[f].state == s.fibers[f].state
    ensures PinsSighted(s')
  {
    forall k | 0 <= k < |s'.queue| ensures Sighted(s', k) {
      assert Sighted(s, k);
    }
  }

  lemma SightedPush(s: System, caller: Option<WorkerId>, e: Entry)
    requires PinsSighted(s) && CanUser(s, Push(caller, e))
    requires forall w :: 0 <= w < |s.workers| ==> WorkerFits(s, w, s.workers[w])
    requires LiveTarget(s, User(Push(caller, e))) && Decided(s, User(Push(caller, e)))
    ensures PinsSighted(ApplyUser(s, Push(caller, e)))
  {
    assert e.thread != -1 ==> Pins(s, User(Push(caller, e)), e);
    SightedAppend(s, e);
    var s', s'' := s.(queue := s.queue + [e]), ApplyUser(s, Push(caller, e));
    forall k | 0 <= k < |s''.queue| ensures Sighted(s'', k) {
      assert Sighted(s', k);
    }
  }

  lemma SightedSwitchTo(s: System, w: WorkerId, t: WorkerId)
    requires PinsSighted(s) && CanUser(s, SwitchTo(w, t)) && QueueFits(s)
    requires forall v :: 0 <= v < |s.workers| ==> WorkerFits(s, v, s.workers[v])
    requires LiveTarget(s, User(SwitchTo(w, t))) && Decided(s, User(SwitchTo(w, t)))
    ensures PinsSighted(ApplyUser(s, SwitchTo(w, t)))
  {
    var f := s.workers[w].pc.f;
    var e := Entry(FiberTask(f), t);
    var s' := SetFiber(s, f, s.fibers[f].(landing := Some(t)));
    assert Pins(s, User(SwitchTo(w, t)), e);
    SightedFibers(s, s');
    assert forall v :: 0 <= v < |s.workers| ==> WorkerFits(s, v, s.workers[v]) && s'.workers[v] == s.workers[v];
    SightedAppend(s', e);
  }

  lemma SightedUser(s: System, u: UserOp)
    requires PinsSighted(s) && CanUser(s, u) && QueueFits(s)
    requires forall w :: 0 <= w < |s.workers| ==> WorkerFits(s, w, s.workers[w])
    requires LiveTarget(s, User(u)) && Decided(s, User(u))
    ensures PinsSighted(ApplyUser(s, u))
  {
    match u
    case Push(caller, e) => SightedPush(s, caller, e);
    case SwitchTo(w, t) => SightedSwitchTo(s, w, t);
    case _ => SightedFibers(s, ApplyUser(s, u));
  }

  lemma SightedStep(s: System, a: Action)
    requires PinsSighted(s) && Structure(s) && CanStep(s, a) && LiveTarget(s, a) && Decided(s, a)
    ensures PinsSighted(Apply(s, a))
  {
    match a
    case Main(m) => SightedMain(s, m);
    case User(u) => SightedUser(s, u);
    case Scan(w, op) => SightedScan(s, w, op);
    case Run(w, op) =>
      assert WorkerFits(s, w, s.workers[w]);
      SightedRun(s, w, op);
    case Settle(w, op) => SightedSettle(s, w, op);
    case Idle(w, op) => SightedIdle(s, w, op);
  }

  /** Every step before `k` that pins an entry pins it where it can be taken, and no race decides. */
  ghost predicate AllLive(tr: seq<System>, acts: seq<Action>, k: nat)
    requires k <= |acts| < |tr|
  {
    forall i :: 0 <= i < k ==> LiveTarget(tr[i], acts[i])
  }

  ghost predicate AllDecided(tr: seq<System>, acts: seq<Action>, k: nat)
    requires k <= |acts| < |tr|
  {
    forall i :: 0 <= i < k ==> Decided(tr[i], acts[i])
  }

  lemma SightedNext(tr: seq<System>, acts: seq<Action>, k: nat)
    requires IsRun(tr, acts) && k < |acts| && PinsSighted(tr[k])
    requires LiveTarget(tr[k], acts[k]) && Decided(tr[k], acts[k])
    ensures PinsSighted(tr[k + 1])
  {
    RunInv(tr, acts, k);
    assert StepAt(tr, acts, k);
    SightedStep(tr[k], acts[k]);
  }

  lemma {:induction false} SightedRuns(tr: seq<System>, acts: seq<Action>, k: nat)
    requires IsRun(tr, acts) && k <= |acts| && AllLive(tr, acts, k) && AllDecided(tr, acts, k)
    ensures PinsSighted(tr[k])
  {
    if k > 0 {
      SightedRuns(tr, acts, k - 1);
      SightedNext(tr, acts, k - 1);
    }
  }

  /** Of a state without workers nothing pinned can be left if its pinned entries are sighted. */
  lemma DoneSeesNothing(s: System, k: nat)
    requires AllDone(s) && PinsSighted(s) && k < |s.queue|
    ensures s.queue[k].thread == -1
  {
    assert Sighted(s, k);
    var t := s.queue[k].thread;
    assert 0 <= t < |s.workers| ==> Done(s.workers[t]);
  }

  /** A step that pins an entry leaves it in the queue, and nobody comes back by it. */
  lemma PinsQueues(s: System, a: Action, e: Entry)
    requires CanStep(s, a) && Pins(s, a, e)
    ensures e in Apply(s, a).queue && Apply(s, a).workers == s.workers
  {
    assert Apply(s, a).queue[|s.queue|] == e;
  }

  /**
   Once every worker has left, the queue is empty exactly if each step of the run that pinned an entry pinned it to
   a worker that had not made its last scan. Excluded are pins, of a fiber that is EXEC, to a worker that is about
   to leave.
   */
  lemma EmptyIffLiveTargets(tr: seq<System>, acts: seq<Action>, k: nat)
    requires IsRun(tr, acts) && k <= |acts| && AllDone(tr[k]) && AllDecided(tr, acts, k)
    ensures tr[k].queue == [] <==> AllLive(tr, acts, k)
  {
    if AllLive(tr, acts, k) {
      SightedRuns(tr, acts, k);
      NoTaskLeftBehind(tr, acts, k);
      if tr[k].queue != [] {
        DoneSeesNothing(tr[k], 0);
        assert false;
      }
    } else {
      var i :| 0 <= i < k && !LiveTarget(tr[i], acts[i]);
      var e :| Pins(tr[i], acts[i], e) && Gone(tr[i], e.thread);
      OnRun(tr, acts, i);
      PinsQueues(tr[i], acts[i], e);
      PinnedElsewhereBlocks(tr, acts, i + 1, k, e);
    }
  }

  // ---- A condition on the caller's side ---------------------------------------------------------------------

  /** The worker's idle fiber has not ended, and the worker has not been passed over. */
  predicate Serves(s: System, t: int) {
    0 <= t < |s.workers| && s.workers[t].idle != TERM && !s.workers[t].pc.Skipped?
  }

  ghost predicate AllServed(tr: seq<System>, acts: seq<Action>, k: nat)
    requires k <= |acts| < |tr|
  {
    forall i, e :: 0 <= i < k && Pins(tr[i], acts[i], e) ==> Serves(tr[i], e.thread)
  }

  lemma ServesIsLive(s: System, t: int)
    requires Serves(s, t) && WorkerFits(s, t, s.workers[t])
    ensures !Gone(s, t)
  {
  }

  /**
   If every entry is pinned, and every `switchTo` aimed, at a worker whose idle fiber has not ended, then nothing at
   all is left behind: once every worker has left, the queue is empty and every callback has started.
   */
  lemma ServedRunsEmpty(tr: seq<System>, acts: seq<Action>, k: nat)
    requires IsRun(tr, acts) && k <= |acts| && AllDone(tr[k]) && AllServed(tr, acts, k)
    ensures tr[k].queue == []
    ensures forall c: Id :: Handed(acts[..k], c) == Occurrences(OwnPending, tr[k].fibers, c) + Starts(tr, acts, k, c)
  {
    forall i | 0 <= i < k ensures LiveTarget(tr[i], acts[i]) && Decided(tr[i], acts[i]) {
      OnRun(tr, acts, i);
      forall e | Pins(tr[i], acts[i], e) ensures !Gone(tr[i], e.thread) {
        ServesIsLive(tr[i], e.thread);
      }
    }
    EmptyIffLiveTargets(tr, acts, k);
    NoTaskLeftBehind(tr, acts, k);
  }
}
