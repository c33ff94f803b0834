/**
 Concrete disciplined runs with pinned entries: two in which stop() waits for ever, and two that part after the same
 pin of a running fiber to a worker that is about to leave.
 */
module WorkerPinScenarios {
  import opened Options
  import opened FiberStates
  import opened WorkerSteps
  import opened WorkerPins
  import opened WorkerScenarios
  import opened WorkerTheorems

  /** `tr` is a run to the state `s`. */
  ghost predicate Reaches(tr: seq<System>, acts: seq<Action>, s: System) {
    IsRun(tr, acts) && tr[|acts|] == s
  }

  lemma Then(tr: seq<System>, acts: seq<Action>, s: System, a: Action)
    returns (tr': seq<System>, acts': seq<Action>)
    requires Reaches(tr, acts, s) && CanStep(s, a) && Disciplined(s, a)
    ensures Reaches(tr', acts', Apply(s, a)) && acts' == acts + [a]
  {
    tr', acts' := tr + [Apply(s, a)], acts + [a];
    ExtendRun(tr, acts, a);
  }

  // ---- A thread that is no worker ---------------------------------------------------------------------------

  /** A callback pinned to thread 2, when the workers are 0 and 1. */
  lemma PinnedToNobody() returns (tr: seq<System>, acts: seq<Action>)
    ensures IsRun(tr, acts) && |tr[|acts|].workers| == 2
    ensures Stuck(tr[|acts|], Entry(CallbackTask(3), 2)) && Stays(tr[|acts|], 0) && Stays(tr[|acts|], 1)
  {
    var w := Worker(NotStarted, None, INIT);
    var s := System([], [], [w, w], None, 0, 0, true, false, Setup, false, multiset{}, multiset{});
    var push := User(Push(None, Entry(CallbackTask(3), 2)));
    tr, acts := [s], [];
    tr, acts := Then(tr, acts, s, push);
    tr, acts := Then(tr, acts, Apply(s, push), Main(Start));
  }

  // ---- A worker that leaves ---------------------------------------------------------------------------------

  /** Two workers and one fiber, while stop() waits for them; worker 1 and its idle fiber are given by `other`. */
  function Late(q: seq<Entry>, st: State, landing: Option<WorkerId>, pc0: Pc, other: Worker,
                lock: Option<WorkerId>, active: int, idleCount: int): System
  {
    System(q, [Fiber(st, Some(7), false, true, true, landing)], [Worker(pc0, None, INIT), other],
           lock, active, idleCount, true, true, Joining, false, multiset{7}, multiset{7})
  }

  /** Worker 0 has the fiber in its hand, READY, after the decrement; worker 1 is as given. */
  function Gap(other: Worker, lock: Option<WorkerId>, idleCount: int): System {
    Late([], READY, None, Handling(0, Counted, false), other, lock, 0, idleCount)
  }

  lemma Closing() returns (tr: seq<System>, acts: seq<Action>)
    ensures Reaches(tr, acts, Gap(Worker(Top, None, INIT), None, 0))
  {
    tr, acts := CountedReady();
    var s := Two([], READY, Handling(0, Counted, false), Top, None, 0);
    tr, acts := Then(tr, acts, s, Main(SetAutoStop));
    tr, acts := Then(tr, acts, Apply(s, Main(SetAutoStop)), Main(SetStopping));
    tr, acts := Then(tr, acts, Apply(Apply(s, Main(SetAutoStop)), Main(SetStopping)), Main(CallRoot));
  }

  /** Worker 1 finds the queue empty. */
  lemma ScansNothing(tr: seq<System>, acts: seq<Action>, idle: State) returns (tr': seq<System>, acts': seq<Action>)
    requires Reaches(tr, acts, Gap(Worker(Top, None, idle), None, 0))
    ensures Reaches(tr', acts', Gap(Worker(IdleCheck, None, idle), None, 0))
  {
    tr', acts' := Then(tr, acts, Gap(Worker(Top, None, idle), None, 0), Scan(1, Lock));
    tr', acts' := Then(tr', acts', Gap(Worker(Scanning(0), None, idle), Some(1), 0), Scan(1, ScanEnd));
  }

  lemma Idles() returns (tr: seq<System>, acts: seq<Action>)
    ensures Reaches(tr, acts, Gap(Worker(IdleReturned, None, TERM), None, 1))
  {
    tr, acts := Closing();
    tr, acts := ScansNothing(tr, acts, INIT);
    tr, acts := Then(tr, acts, Gap(Worker(IdleCheck, None, INIT), None, 0), Idle(1, IdleStart));
    tr, acts := Then(tr, acts, Gap(Worker(IdleEntering, None, INIT), None, 1), Idle(1, IdleEnter));
    tr, acts := Then(tr, acts, Gap(Worker(IdleRunning, None, EXEC), None, 1), Idle(1, IdlePoll));
  }

  /** The idle fiber of worker 1 has ended, and the worker is about to make its last scan. */
  lemma AboutToLeave() returns (tr: seq<System>, acts: seq<Action>)
    ensures Reaches(tr, acts, Gap(Worker(Top, None, TERM), None, 0))
  {
    tr, acts := Idles();
    tr, acts := Then(tr, acts, Gap(Worker(IdleReturned, None, TERM), None, 1), Idle(1, IdleDecrement));
    tr, acts := Then(tr, acts, Gap(Worker(IdleParking, None, TERM), None, 0), Idle(1, IdlePark));
  }

  lemma HasLeft() returns (tr: seq<System>, acts: seq<Action>)
    ensures Reaches(tr, acts, Gap(Worker(Exited, None, TERM), None, 0))
  {
    tr, acts := AboutToLeave();
    tr, acts := ScansNothing(tr, acts, TERM);
    tr, acts := Then(tr, acts, Gap(Worker(IdleCheck, None, TERM), None, 0), Idle(1, IdleStart));
  }

  /** Worker 0 requeues the fiber and takes it again. */
  lemma TakesAgain(tr: seq<System>, acts: seq<Action>, other: Worker) returns (tr': seq<System>, acts': seq<Action>)
    requires Reaches(tr, acts, Gap(other, None, 0))
    ensures Reaches(tr', acts', Late([], READY, None, Handling(0, Taken, false), other, None, 1, 0))
  {
    tr', acts' := Then(tr, acts, Gap(other, None, 0), Settle(0, Inspect));
    tr', acts' := Then(tr', acts', Late([], READY, None, Handling(0, Requeueing, false), other, None, 0, 0),
                       Settle(0, Requeue));
    tr', acts' := Then(tr', acts', Late([SELF], READY, None, Top, other, None, 0, 0), Scan(0, Lock));
    tr', acts' := Then(tr', acts', Late([SELF], READY, None, Scanning(0), other, Some(0), 0, 0), Scan(0, Pick));
    assert [SELF][..0] + [SELF][0 + 1..] == [];
  }

  /** The fiber runs again and switches to worker 1. */
  lemma SwitchesToOther(tr: seq<System>, acts: seq<Action>, other: Worker)
    returns (tr': seq<System>, acts': seq<Action>)
    requires Reaches(tr, acts, Gap(other, None, 0))
    ensures Reaches(tr', acts', Late([Entry(FiberTask(0), 1)], EXEC, Some(1), Handling(0, Running, false),
                                     other, None, 1, 0))
  {
    tr', acts' := TakesAgain(tr, acts, other);
    tr', acts' := Then(tr', acts', Late([], READY, None, Handling(0, Taken, false), other, None, 1, 0), Run(0, Check));
    tr', acts' := Then(tr', acts', Late([], READY, None, Handling(0, Entering, false), other, None, 1, 0),
                       Run(0, Enter));
    tr', acts' := Then(tr', acts', Late([], EXEC, None, Handling(0, Running, false), other, None, 1, 0),
                       User(SwitchTo(0, 1)));
  }

  /** The fiber switches to a worker that has left: it is never resumed, and worker 0 never leaves. */
  lemma PinnedToLeaver() returns (tr: seq<System>, acts: seq<Action>)
    ensures IsRun(tr, acts) && |tr[|acts|].workers| == 2
    ensures Stuck(tr[|acts|], Entry(FiberTask(0), 1)) && Stays(tr[|acts|], 0)
  {
    tr, acts := HasLeft();
    tr, acts := SwitchesToOther(tr, acts, Worker(Exited, None, TERM));
  }

  // ---- A worker that is about to leave ----------------------------------------------------------------------

  /** The fiber switches to worker 1 just before that worker's last scan. */
  lemma JustInTime() returns (tr: seq<System>, acts: seq<Action>)
    ensures Reaches(tr, acts, Late([Entry(FiberTask(0), 1)], EXEC, Some(1), Handling(0, Running, false),
                                   Worker(Top, None, TERM), None, 1, 0))
  {
    tr, acts := AboutToLeave();
    tr, acts := SwitchesToOther(tr, acts, Worker(Top, None, TERM));
  }

  /** If the scan comes first it finds the fiber EXEC, and the worker leaves without it. */
  lemma ScanComesFirst() returns (tr: seq<System>, acts: seq<Action>)
    ensures IsRun(tr, acts) && Stuck(tr[|acts|], Entry(FiberTask(0), 1))
  {
    var q := [Entry(FiberTask(0), 1)];
    var pc := Handling(0, Running, false);
    tr, acts := JustInTime();
    tr, acts := Then(tr, acts, Late(q, EXEC, Some(1), pc, Worker(Top, None, TERM), None, 1, 0), Scan(1, Lock));
    tr, acts := Then(tr, acts, Late(q, EXEC, Some(1), pc, Worker(Scanning(0), None, TERM), Some(1), 1, 0),
                     Scan(1, Skip));
    tr, acts := Then(tr, acts, Late(q, EXEC, Some(1), pc, Worker(Scanning(1), None, TERM), Some(1), 1, 0),
                     Scan(1, ScanEnd));
  }

  lemma SwitchedBack() returns (tr: seq<System>, acts: seq<Action>)
    ensures Reaches(tr, acts, Late([Entry(FiberTask(0), 1)], EXEC, Some(1), Handling(0, Returned, false),
                                   Worker(Top, None, TERM), None, 1, 0))
  {
    var q, other := [Entry(FiberTask(0), 1)], Worker(Top, None, TERM);
    tr, acts := JustInTime();
    tr, acts := Then(tr, acts, Late(q, EXEC, Some(1), Handling(0, Running, false), other, None, 1, 0),
                     Run(0, Leave(YieldToHold)));
    tr, acts := Then(tr, acts, Late(q, EXEC, Some(1), Handling(0, Leaving, false), other, None, 1, 0),
                     Run(0, SwapBack));
  }

  lemma Parked() returns (tr: seq<System>, acts: seq<Action>)
    ensures Reaches(tr, acts, Late([Entry(FiberTask(0), 1)], HOLD, Some(1), Top, Worker(Top, None, TERM), None, 0, 0))
  {
    var q, other := [Entry(FiberTask(0), 1)], Worker(Top, None, TERM);
    tr, acts := SwitchedBack();
    tr, acts := Then(tr, acts, Late(q, EXEC, Some(1), Handling(0, Returned, false), other, None, 1, 0),
                     Settle(0, Decrement));
    tr, acts := Then(tr, acts, Late(q, EXEC, Some(1), Handling(0, Counted, false), other, None, 0, 0),
                     Settle(0, Inspect));
    tr, acts := Then(tr, acts, Late(q, EXEC, Some(1), Handling(0, Parking, false), other, None, 0, 0), Settle(0, Park));
  }

  /** If the fiber is parked first the last scan takes it. */
  lemma ParkComesFirst() returns (tr: seq<System>, acts: seq<Action>)
    ensures IsRun(tr, acts) && tr[|acts|].queue == [] && InHand(tr[|acts|], 1, 0)
  {
    var q := [Entry(FiberTask(0), 1)];
    tr, acts := Parked();
    tr, acts := Then(tr, acts, Late(q, HOLD, Some(1), Top, Worker(Top, None, TERM), None, 0, 0), Scan(1, Lock));
    tr, acts := Then(tr, acts, Late(q, HOLD, Some(1), Top, Worker(Scanning(0), None, TERM), Some(1), 0, 0),
                     Scan(1, Pick));
    assert q[..0] + q[0 + 1..] == [];
  }
}
