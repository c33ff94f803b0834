/** What becomes of a task, from the step that queues it: where it is started, and that it is not forgotten. */
module WorkerTasks {
  import opened Options
  import opened FiberStates
  import opened Bags
  import opened WorkerHistory
  import opened WorkerInvariants
  import opened WorkerSteps
  import opened WorkerTheorems

  lemma QueuedNow(tr: seq<System>, acts: seq<Action>, j: nat, e: Entry)
    requires IsRun(tr, acts) && j < |acts| && Queues(tr[j], acts[j], e)
    ensures e in tr[j + 1].queue
  {
    OnRun(tr, acts, j);
    assert tr[j + 1].queue[|tr[j].queue|] == e;
  }

  // ---- Fibers -----------------------------------------------------------------------------------------------

  /**
   A fiber that is pushed, or switches to a thread, is entered or has ended before the last worker has left. If it
   is pinned, that is said of the worker it is pinned to, provided that its entry is not left in the queue.
   */
  lemma PushedFiberRuns(tr: seq<System>, acts: seq<Action>, j: nat, k: nat, f: FiberId, t: int)
    requires IsRun(tr, acts) && j < k <= |acts| && Queues(tr[j], acts[j], Entry(FiberTask(f), t))
    requires AllDone(tr[k]) && (t != -1 ==> Entry(FiberTask(f), t) !in tr[k].queue)
    ensures exists i :: j < i < k && TakesUpOn(tr[i], acts[i], f, t)
  {
    QueuedNow(tr, acts, j, Entry(FiberTask(f), t));
    EveryQueuedFiberRuns(tr, acts, j + 1, k, f, t);
  }

  // ---- Callbacks --------------------------------------------------------------------------------------------

  /** Worker `w` has taken callback `c` from the queue and has not started it yet. */
  predicate CallbackWith(s: System, w: WorkerId, c: Id) {
    && w < |s.workers|
    && (s.workers[w].pc == GotCallback(c)
        || (At(s, w, Entering) && s.workers[w].pc.viaCb && Pending(Hand(s, w)) == Some(c)))
  }

  ghost predicate CallbackWaits(s: System, c: Id, t: int) {
    Entry(CallbackTask(c), t) in s.queue || exists w :: Suits(w, t) && CallbackWith(s, w, c)
  }

  /** A worker that suits the pin starts the callback. */
  predicate StartsOn(s: System, a: Action, c: Id, t: int) { StartedBy(s, a) == Some(c) && a.Run? && Suits(a.w, t) }

  /** A step that lets the callback's worker keep it, and the fiber made for it. */
  lemma CallbackKept(s: System, s': System, c: Id, t: int)
    requires CallbackWaits(s, c, t) && s.queue <= s'.queue
    requires forall w: WorkerId :: Suits(w, t) && CallbackWith(s, w, c) ==> CallbackWith(s', w, c)
    ensures CallbackWaits(s', c, t)
  {
    if w: WorkerId :| Suits(w, t) && CallbackWith(s, w, c) {
      assert CallbackWith(s', w, c);
    } else {
      var k :| 0 <= k < |s.queue| && s.queue[k] == Entry(CallbackTask(c), t);
      assert s'.queue[k] == s.queue[k];
    }
  }

  lemma CallbackScan(s: System, w: WorkerId, op: ScanOp, c: Id, t: int)
    requires CanScan(s, w, op) && CallbackWaits(s, c, t)
    ensures CallbackWaits(ApplyScan(s, w, op), c, t)
  {
    var s' := ApplyScan(s, w, op);
    if v: WorkerId :| Suits(v, t) && CallbackWith(s, v, c) {
      assert CallbackWith(s', v, c);
    } else if op == Pick {
      var i := s.workers[w].pc.i;
      var k :| 0 <= k < |s.queue| && s.queue[k] == Entry(CallbackTask(c), t);
      if k == i {
        assert CallbackWith(s', w, c);
      } else {
        assert s'.queue[if k < i then k else k - 1] == s.queue[k];
      }
    }
  }

  lemma CallbackMain(s: System, m: MainOp, c: Id, t: int)
    requires Shape(s) && CanMain(s, m) && CallbackWaits(s, c, t)
    ensures CallbackWaits(ApplyMain(s, m), c, t)
  {
    var s' := ApplyMain(s, m);
    forall w: WorkerId | CallbackWith(s, w, c) ensures CallbackWith(s', w, c) {
      assert MainFits(s, w, s.workers[w]) && MainFits(s, 0, s.workers[0]);
    }
    CallbackKept(s, s', c, t);
  }

  lemma CallbackUser(s: System, u: UserOp, c: Id, t: int)
    requires CanUser(s, u) && CallbackWaits(s, c, t)
    ensures CallbackWaits(ApplyUser(s, u), c, t)
  {
    var s' := ApplyUser(s, u);
    assert s.queue <= s'.queue;
    CallbackKept(s, s', c, t);
  }

  /** A worker's step leaves the fibers of other workers alone. */
  lemma OthersKeepCallback(s: System, s': System, w: WorkerId, c: Id, t: int)
    requires CallbackWaits(s, c, t) && OneHolder(s) && s.queue <= s'.queue
    requires w < |s.workers| == |s'.workers| && s'.workers == s.workers[w := s'.workers[w]]
    requires |s.fibers| <= |s'.fibers|
    requires forall g :: 0 <= g < |s.fibers| && !Holds(s.workers[w], g) ==> s'.fibers[g] == s.fibers[g]
    requires Suits(w, t) && CallbackWith(s, w, c) ==> CallbackWith(s', w, c)
    ensures CallbackWaits(s', c, t)
  {
    forall v: WorkerId | Suits(v, t) && CallbackWith(s, v, c) ensures CallbackWith(s', v, c) {
      if v != w {
        assert s'.workers[v] == s.workers[v];
        assert s.workers[v].pc.Handling? ==> Holds(s.workers[v], s.workers[v].pc.f);
      }
    }
    CallbackKept(s, s', c, t);
  }

  lemma CallbackEnter(s: System, w: WorkerId, c: Id, t: int)
    requires CanRun(s, w, Enter) && OneHolder(s) && CallbackWaits(s, c, t) && !StartsOn(s, Run(w, Enter), c, t)
    ensures CallbackWaits(ApplyRun(s, w, Enter), c, t)
  {
    OthersKeepCallback(s, ApplyRun(s, w, Enter), w, c, t);
  }

  lemma CallbackPrepare(s: System, w: WorkerId, c: Id, t: int)
    requires CanRun(s, w, Prepare) && OneHolder(s) && CallbackWaits(s, c, t)
    ensures CallbackWaits(ApplyRun(s, w, Prepare), c, t)
  {
    OthersKeepCallback(s, ApplyRun(s, w, Prepare), w, c, t);
  }

  lemma CallbackRun(s: System, w: WorkerId, op: RunOp, c: Id, t: int)
    requires CanRun(s, w, op) && WorkerFits(s, w, s.workers[w]) && OneHolder(s) && CallbackWaits(s, c, t)
    requires !StartsOn(s, Run(w, op), c, t)
    ensures CallbackWaits(ApplyRun(s, w, op), c, t)
  {
    match op
    case Enter => CallbackEnter(s, w, c, t);
    case Prepare => CallbackPrepare(s, w, c, t);
    case _ => OthersKeepCallback(s, ApplyRun(s, w, op), w, c, t);
  }

  lemma CallbackSettle(s: System, w: WorkerId, op: SettleOp, c: Id, t: int)
    requires CanSettle(s, w, op) && OneHolder(s) && CallbackWaits(s, c, t)
    ensures CallbackWaits(ApplySettle(s, w, op), c, t)
  {
    OthersKeepCallback(s, ApplySettle(s, w, op), w, c, t);
  }

  lemma CallbackIdle(s: System, w: WorkerId, op: IdleOp, c: Id, t: int)
    requires CanIdle(s, w, op) && OneHolder(s) && CallbackWaits(s, c, t)
    ensures CallbackWaits(ApplyIdle(s, w, op), c, t)
  {
    OthersKeepCallback(s, ApplyIdle(s, w, op), w, c, t);
  }

  lemma CallbackStep(s: System, a: Action, c: Id, t: int)
    requires Structure(s) && CanStep(s, a) && CallbackWaits(s, c, t) && !StartsOn(s, a, c, t)
    ensures CallbackWaits(Apply(s, a), c, t)
  {
    match a
    case Main(m) => CallbackMain(s, m, c, t);
    case User(u) => CallbackUser(s, u, c, t);
    case Scan(w, op) => CallbackScan(s, w, op, c, t);
    case Run(w, op) =>
      assert WorkerFits(s, w, s.workers[w]);
      CallbackRun(s, w, op, c, t);
    case Settle(w, op) => CallbackSettle(s, w, op, c, t);
    case Idle(w, op) => CallbackIdle(s, w, op, c, t);
  }

  lemma CallbackNext(tr: seq<System>, acts: seq<Action>, k: nat, c: Id, t: int)
    requires IsRun(tr, acts) && k < |acts| && CallbackWaits(tr[k], c, t) && !StartsOn(tr[k], acts[k], c, t)
    ensures CallbackWaits(tr[k + 1], c, t)
  {
    RunInv(tr, acts, k);
    OnRun(tr, acts, k);
    CallbackStep(tr[k], acts[k], c, t);
  }

  lemma {:induction false} CallbackWaitsOn(tr: seq<System>, acts: seq<Action>, j: nat, k: nat, c: Id, t: int)
    requires IsRun(tr, acts) && j <= k <= |acts| && CallbackWaits(tr[j], c, t)
    requires forall i :: j <= i < k ==> !StartsOn(tr[i], acts[i], c, t)
    ensures CallbackWaits(tr[k], c, t)
  {
    if j < k {
      CallbackWaitsOn(tr, acts, j, k - 1, c, t);
      CallbackNext(tr, acts, k - 1, c, t);
    }
  }

  /**
   A callback that is pushed is started before the last worker has left. If it is pinned, that is said of the
   worker it is pinned to, provided that its entry is not left in the queue.
   */
  lemma PushedCallbackStarts(tr: seq<System>, acts: seq<Action>, j: nat, k: nat, c: Id, t: int)
    requires IsRun(tr, acts) && j < k <= |acts| && Queues(tr[j], acts[j], Entry(CallbackTask(c), t))
    requires AllDone(tr[k]) && (t != -1 ==> Entry(CallbackTask(c), t) !in tr[k].queue)
    ensures exists i :: j < i < k && StartsOn(tr[i], acts[i], c, t)
  {
    QueuedNow(tr, acts, j, Entry(CallbackTask(c), t));
    if forall i :: j < i < k ==> !StartsOn(tr[i], acts[i], c, t) {
      CallbackWaitsOn(tr, acts, j + 1, k, c, t);
      NoTaskLeftBehind(tr, acts, k);
      NoCallbackWaits(tr[k], c, t);
    }
  }

  lemma NoCallbackWaits(s: System, c: Id, t: int)
    requires AllDone(s) && Entry(CallbackTask(c), t) !in s.queue
    ensures !CallbackWaits(s, c, t)
  {
    assert forall w: WorkerId :: w < |s.workers| ==> Done(s.workers[w]);
  }

  // ---- Fibers that yield to ready -----------------------------------------------------------------------------

  /** The fiber has yielded to ready, and its worker will put it back into the queue. */
  ghost predicate ComesBack(s: System, f: FiberId) {
    exists w: WorkerId :: w < |s.workers| && BringsBack(s, w, f)
  }

  predicate BringsBack(s: System, w: WorkerId, f: FiberId)
    requires w < |s.workers|
  {
    && s.workers[w].pc.Handling? && s.workers[w].pc.f == f && f < |s.fibers| && s.fibers[f].state == READY
    && (s.workers[w].pc.phase.Leaving? || s.workers[w].pc.phase.Returned? || s.workers[w].pc.phase.Counted?
        || s.workers[w].pc.phase.Requeueing?)
  }

  /** A step of another worker, or of one that goes on bringing the fiber back. */
  lemma StillComesBack(s: System, s': System, v: WorkerId, w: WorkerId, f: FiberId)
    requires OneHolder(s) && v < |s.workers| && BringsBack(s, v, f)
    requires w < |s.workers| == |s'.workers| && s'.workers == s.workers[w := s'.workers[w]]
    requires |s.fibers| <= |s'.fibers|
    requires forall g :: 0 <= g < |s.fibers| && !Holds(s.workers[w], g) ==> s'.fibers[g] == s.fibers[g]
    requires v == w ==> BringsBack(s', w, f)
    ensures ComesBack(s', f)
  {
    assert Holds(s.workers[v], f);
    assert BringsBack(s', v, f);
  }

  lemma RequeueBringsBack(s: System, w: WorkerId)
    requires CanSettle(s, w, Requeue)
    ensures Entry(FiberTask(s.workers[w].pc.f), -1) in ApplySettle(s, w, Requeue).queue
  {
    var s' := ApplySettle(s, w, Requeue);
    assert s'.queue[|s.queue|] == Entry(FiberTask(s.workers[w].pc.f), -1);
  }

  lemma ComesBackSettle(s: System, w: WorkerId, op: SettleOp, f: FiberId)
    requires CanSettle(s, w, op) && OneHolder(s) && WorkerFits(s, w, s.workers[w]) && ComesBack(s, f)
    ensures ComesBack(ApplySettle(s, w, op), f) || Entry(FiberTask(f), -1) in ApplySettle(s, w, op).queue
  {
    var v: WorkerId :| v < |s.workers| && BringsBack(s, v, f);
    if v == w && op == Requeue {
      RequeueBringsBack(s, w);
    } else {
      StillComesBack(s, ApplySettle(s, w, op), v, w, f);
    }
  }

  lemma ComesBackRun(s: System, w: WorkerId, op: RunOp, f: FiberId)
    requires CanRun(s, w, op) && OneHolder(s) && WorkerFits(s, w, s.workers[w]) && ComesBack(s, f)
    ensures ComesBack(ApplyRun(s, w, op), f)
  {
    var v: WorkerId :| v < |s.workers| && BringsBack(s, v, f);
    StillComesBack(s, ApplyRun(s, w, op), v, w, f);
  }

  lemma ComesBackScan(s: System, w: WorkerId, op: ScanOp, f: FiberId)
    requires CanScan(s, w, op) && OneHolder(s) && ComesBack(s, f)
    ensures ComesBack(ApplyScan(s, w, op), f)
  {
    var v: WorkerId :| v < |s.workers| && BringsBack(s, v, f);
    StillComesBack(s, ApplyScan(s, w, op), v, w, f);
  }

  lemma ComesBackIdle(s: System, w: WorkerId, op: IdleOp, f: FiberId)
    requires CanIdle(s, w, op) && OneHolder(s) && ComesBack(s, f)
    ensures ComesBack(ApplyIdle(s, w, op), f)
  {
    var v: WorkerId :| v < |s.workers| && BringsBack(s, v, f);
    StillComesBack(s, ApplyIdle(s, w, op), v, w, f);
  }

  lemma ComesBackMain(s: System, m: MainOp, f: FiberId)
    requires CanMain(s, m) && Shape(s) && ComesBack(s, f)
    ensures ComesBack(ApplyMain(s, m), f)
  {
    var v: WorkerId :| v < |s.workers| && BringsBack(s, v, f);
    assert MainFits(s, v, s.workers[v]) && MainFits(s, 0, s.workers[0]);
    assert BringsBack(ApplyMain(s, m), v, f);
  }

  lemma ComesBackUser(s: System, u: UserOp, f: FiberId)
    requires CanUser(s, u) && ComesBack(s, f)
    ensures ComesBack(ApplyUser(s, u), f)
  {
    var v: WorkerId :| v < |s.workers| && BringsBack(s, v, f);
    assert BringsBack(ApplyUser(s, u), v, f);
  }

  lemma ComesBackStep(s: System, a: Action, f: FiberId)
    requires Structure(s) && CanStep(s, a) && ComesBack(s, f)
    ensures ComesBack(Apply(s, a), f) || Entry(FiberTask(f), -1) in Apply(s, a).queue
  {
    match a
    case Main(m) => ComesBackMain(s, m, f);
    case User(u) => ComesBackUser(s, u, f);
    case Scan(w, op) => ComesBackScan(s, w, op, f);
    case Run(w, op) =>
      assert WorkerFits(s, w, s.workers[w]);
      ComesBackRun(s, w, op, f);
    case Settle(w, op) =>
      assert WorkerFits(s, w, s.workers[w]);
      ComesBackSettle(s, w, op, f);
    case Idle(w, op) => ComesBackIdle(s, w, op, f);
  }

  lemma ComesBackNext(tr: seq<System>, acts: seq<Action>, k: nat, f: FiberId)
    requires IsRun(tr, acts) && k < |acts| && ComesBack(tr[k], f)
    ensures ComesBack(tr[k + 1], f) || Entry(FiberTask(f), -1) in tr[k + 1].queue
  {
    RunInv(tr, acts, k);
    OnRun(tr, acts, k);
    ComesBackStep(tr[k], acts[k], f);
  }

  /** The fiber comes back until it is in the queue. */
  lemma {:induction false} ComesBackOrQueued(tr: seq<System>, acts: seq<Action>, j: nat, k: nat, f: FiberId)
    requires IsRun(tr, acts) && j <= k <= |acts| && ComesBack(tr[j], f)
    ensures ComesBack(tr[k], f) || exists i :: j < i <= k && Entry(FiberTask(f), -1) in tr[i].queue
  {
    if j < k {
      ComesBackOrQueued(tr, acts, j, k - 1, f);
      if ComesBack(tr[k - 1], f) {
        ComesBackNext(tr, acts, k - 1, f);
      }
    }
  }

  /** The fiber that worker `w` executes leaves in the given way. */
  predicate Leaves(s: System, a: Action, f: FiberId, how: Exit) {
    a.Run? && a.run == Leave(how) && At(s, a.w, Running) && s.workers[a.w].pc.f == f
  }

  lemma YieldComesBack(tr: seq<System>, acts: seq<Action>, j: nat, f: FiberId)
    requires IsRun(tr, acts) && j < |acts| && Leaves(tr[j], acts[j], f, YieldToReady)
    ensures ComesBack(tr[j + 1], f)
  {
    OnRun(tr, acts, j);
    assert BringsBack(tr[j + 1], acts[j].w, f);
  }

  /** A fiber that yields to ready is entered again before the last worker has left. */
  lemma YieldedFiberRunsAgain(tr: seq<System>, acts: seq<Action>, j: nat, k: nat, f: FiberId)
    requires IsRun(tr, acts) && j < k <= |acts| && Leaves(tr[j], acts[j], f, YieldToReady) && AllDone(tr[k])
    ensures exists i :: j < i < k && TakesUp(tr[i], acts[i], f)
  {
    YieldComesBack(tr, acts, j, f);
    ComesBackOrQueued(tr, acts, j + 1, k, f);
    DoneBringsNothing(tr[k], f);
    var q :| j + 1 < q <= k && Entry(FiberTask(f), -1) in tr[q].queue;
    EveryQueuedFiberRuns(tr, acts, q, k, f, -1);
    var i :| q <= i < k && TakesUpOn(tr[i], acts[i], f, -1);
    assert TakesUp(tr[i], acts[i], f);
  }

  lemma DoneBringsNothing(s: System, f: FiberId)
    requires AllDone(s)
    ensures !ComesBack(s, f)
  {
    assert forall w: WorkerId :: w < |s.workers| ==> Done(s.workers[w]);
  }
}
