/**
 The M:N fiber scheduler as a step system (src/scheduler/scheduler.cpp, scheduler.h and src/fiber/fiber.cpp).

 Every worker runs `Scheduler::run`. Only the regions guarded by `m_mutex` exclude each other; a fiber's
 `m_state` is read and written outside the lock, so each such access is a step of its own and the scan of
 the queue is one step per entry. User code (the functions that the fibers run) is arbitrary: it may push
 entries, create fibers, keep or drop pointers, yield, return or throw, in any order.
 */
module WorkerSteps {
  import opened Options
  import opened FiberStates
  import opened Bags

  type FiberId = nat
  type WorkerId = nat

  datatype Task = FiberTask(f: FiberId) | CallbackTask(c: Id)

  /** One element of `m_fibers`; `thread == -1` means any worker. */
  datatype Entry = Entry(task: Task, thread: int)

  /**
   A fiber object. `body` is `m_cb`; `pooled` says that `run` made it for a callback; `selfRef` is the pointer
   that `MainFunc` keeps in `cur` while the function runs; `userRef` says that user code holds a pointer.
   `landing` remembers the argument of a `switchTo` that has not returned yet.
   */
  datatype Fiber = Fiber(state: State, body: Option<Id>, pooled: bool,
                         selfRef: bool, userRef: bool, landing: Option<WorkerId>)

  /** Where a worker is while it handles one fiber (scheduler.cpp:181-211). */
  datatype Phase =
    | Taken         // erased from the queue, state not yet looked at
    | Entering      // about to call swapIn
    | Running       // the fiber's function is executing
    | Leaving       // the fiber has decided to leave; its context is not yet saved
    | Returned      // back in run(), before the decrement
    | Counted       // after the decrement, before the state is looked at
    | Requeueing    // READY was seen, schedule() not yet called
    | Parking       // about to write HOLD
    | Recycling     // about to call cb_fiber->reset(nullptr)

  datatype Pc =
    | NotStarted
    | Top                                          // before taking the lock
    | Scanning(i: nat)                             // holds the lock, next entry is i
    | GotCallback(c: Id)                           // ft.cb is set
    | Handling(f: FiberId, phase: Phase, viaCb: bool)
    | IdleCheck | IdleEntering | IdleRunning | IdleReturned | IdleParking
    | Exited
    | Skipped                                      // the root fiber that stop() did not need to call

  datatype Worker = Worker(pc: Pc, cbFiber: Option<FiberId>, idle: State)

  /** Progress of the controlling thread through start() and stop(). */
  datatype Main = Setup | Started | AutoStopSet | StopSet | Joining

  datatype System = System(
    queue: seq<Entry>, fibers: seq<Fiber>, workers: seq<Worker>, lock: Option<WorkerId>,
    active: int, idleCount: int, stopping: bool, autoStop: bool, main: Main, useCaller: bool,
    submitted: multiset<Id>, started: multiset<Id>)

  /** How a running fiber leaves: the two yields, a normal return, an exception. */
  datatype Exit = YieldToReady | YieldToHold | Return | Throw

  /** start() and stop() on the controlling thread. */
  datatype MainOp = Start | SetAutoStop | SetStopping | CallRoot

  /** What user code may do at any time; `caller` is the worker whose running fiber acts, if any. */
  datatype UserOp =
    | Push(caller: Option<WorkerId>, e: Entry)
    | SwitchTo(w: WorkerId, t: WorkerId)
    | NewFiber(c: Id)
    | TakeRef(w: WorkerId)
    | DropRef(f: FiberId)

  /** The locked scan of the queue (scheduler.cpp:152-175). */
  datatype ScanOp = Lock | Skip | Pick | ScanEnd

  /** From the erased entry to the switch back (scheduler.cpp:181-183, 193-200). */
  datatype RunOp = Check | Prepare | Enter | Leave(how: Exit) | SwapBack

  /** From the switch back to the end of the round (scheduler.cpp:184-192, 201-211). */
  datatype SettleOp = Decrement | Inspect | Requeue | Park | Recycle

  /** The branch without a task (scheduler.cpp:217-229) and `Scheduler::idle` (scheduler.cpp:243-248). */
  datatype IdleOp = IdleStart | IdleEnter | IdlePoll | IdleDecrement | IdlePark

  datatype Action =
    | Main(m: MainOp)
    | User(u: UserOp)
    | Scan(w: WorkerId, scan: ScanOp)
    | Run(w: WorkerId, run: RunOp)
    | Settle(w: WorkerId, settle: SettleOp)
    | Idle(w: WorkerId, idle: IdleOp)

  /** The state in which the constructor leaves a scheduler: no worker has started (scheduler.cpp:13-34). */
  predicate Init(s: System) {
    && s.queue == [] && s.fibers == [] && s.lock == None
    && 0 < |s.workers|
    && (forall w :: 0 <= w < |s.workers| ==> s.workers[w] == Worker(NotStarted, None, INIT))
    && s.active == 0 && s.idleCount == 0 && s.stopping && !s.autoStop && s.main == Setup
    && s.submitted == multiset{} && s.started == multiset{}
  }

  // ---- Small accessors ------------------------------------------------------------------------

  predicate IsFiber(e: Entry, f: FiberId) { e.task == FiberTask(f) }

  predicate InQueue(q: seq<Entry>, f: FiberId) {
    exists k :: 0 <= k < |q| && IsFiber(q[k], f)
  }

  predicate Queued(s: System, f: FiberId) { InQueue(s.queue, f) }

  /** The worker has a pointer to the fiber in `ft` or in `cb_fiber`. */
  predicate Holds(wk: Worker, f: FiberId) {
    (wk.pc.Handling? && wk.pc.f == f) || wk.cbFiber == Some(f)
  }

  predicate At(s: System, w: WorkerId, phase: Phase) {
    w < |s.workers| && s.workers[w].pc.Handling? && s.workers[w].pc.phase == phase
    && s.workers[w].pc.f < |s.fibers|
  }

  function Hand(s: System, w: WorkerId): Fiber
    requires w < |s.workers| && s.workers[w].pc.Handling? && s.workers[w].pc.f < |s.fibers|
  {
    s.fibers[s.workers[w].pc.f]
  }

  /** `stopping()`, evaluated under the lock (scheduler.cpp:237-241). */
  predicate StoppingNow(s: System) {
    s.autoStop && s.stopping && s.queue == [] && s.active == 0
  }

  function SetPc(s: System, w: WorkerId, pc: Pc): System
    requires w < |s.workers|
  {
    s.(workers := s.workers[w := s.workers[w].(pc := pc)])
  }

  function SetFiber(s: System, f: FiberId, x: Fiber): System
    requires f < |s.fibers|
  {
    s.(fibers := s.fibers[f := x])
  }

  /** Moves the worker to another phase of the fiber that it handles. */
  function SetPhase(s: System, w: WorkerId, phase: Phase): System
    requires w < |s.workers| && s.workers[w].pc.Handling?
  {
    SetPc(s, w, s.workers[w].pc.(phase := phase))
  }

  /** The end of one round: `ft.reset()`, and `cb_fiber.reset()` when `dropCb`. */
  function EndRound(s: System, w: WorkerId, dropCb: bool): System
    requires w < |s.workers|
  {
    s.(workers := s.workers[w := s.workers[w].(pc := Top, cbFiber := if dropCb then None else s.workers[w].cbFiber)])
  }

  // ---- The controlling thread -------------------------------------------------------------------

  predicate CanMain(s: System, m: MainOp) {
    match m
    case Start => s.main == Setup && s.lock == None
    case SetAutoStop => s.main == Started
    case SetStopping => s.main == AutoStopSet
    case CallRoot => s.main == StopSet && s.lock == None && 0 < |s.workers|
  }

  /** start() (scheduler.cpp:51-65) and the stages of stop() (scheduler.cpp:74-130). */
  function ApplyMain(s: System, m: MainOp): System
    requires CanMain(s, m)
  {
    match m
    case Start =>
      s.(stopping := false, main := Started,
         workers := seq(|s.workers|, w requires 0 <= w < |s.workers| =>
                          if s.useCaller && w == 0 then s.workers[w] else s.workers[w].(pc := Top)))
    case SetAutoStop => s.(autoStop := true, main := AutoStopSet)
    case SetStopping => s.(stopping := true, main := StopSet)
    case CallRoot =>
      var s' := s.(main := Joining);
      if !s.useCaller then s' else SetPc(s', 0, if StoppingNow(s) then Skipped else Top)
  }

  // ---- User code ----------------------------------------------------------------------------------

  /** To queue a fiber one needs a pointer to it: one's own, or one that user code kept. */
  predicate CanUser(s: System, u: UserOp) {
    match u
    case Push(caller, e) =>
      && s.lock == None && -1 <= e.thread
      && (caller.Some? ==> At(s, caller.value, Running))
      && (e.task.FiberTask? ==>
            e.task.f < |s.fibers|
            && (s.fibers[e.task.f].userRef || (caller.Some? && s.workers[caller.value].pc.f == e.task.f)))
    case SwitchTo(w, t) => s.lock == None && At(s, w, Running) && t != w
    case NewFiber(_) => true
    case TakeRef(w) => At(s, w, Running)
    case DropRef(f) => f < |s.fibers|
  }

  /**
   How callers are expected to queue work. Calls from outside end before stop(); a fiber has at most one queue
   entry; a fiber that a worker still holds may be queued only while it is EXEC.
   */
  predicate DisciplinedUser(s: System, u: UserOp)
    requires CanUser(s, u)
  {
    match u
    case Push(caller, e) =>
      && (caller == None ==> s.main.Setup? || s.main.Started?)
      && (e.task.FiberTask? ==>
            && !Queued(s, e.task.f)
            && (forall w :: 0 <= w < |s.workers| && Holds(s.workers[w], e.task.f)
                  ==> s.fibers[e.task.f].state == EXEC))
    case SwitchTo(w, t) => !Queued(s, s.workers[w].pc.f)
    case _ => true
  }

  /** schedule(), switchTo() up to its yield, the Fiber constructor, and pointers kept or dropped. */
  function ApplyUser(s: System, u: UserOp): System
    requires CanUser(s, u)
  {
    match u
    case Push(caller, e) =>
      s.(queue := s.queue + [e], submitted := Record(s.submitted, QueuedCallback(e)))
    case SwitchTo(w, t) =>
      var f := s.workers[w].pc.f;
      SetFiber(s, f, s.fibers[f].(landing := Some(t))).(queue := s.queue + [Entry(FiberTask(f), t)])
    case NewFiber(c) =>
      s.(fibers := s.fibers + [Fiber(INIT, Some(c), false, false, true, None)],
         submitted := Record(s.submitted, Some(c)))
    case TakeRef(w) => SetFiber(s, s.workers[w].pc.f, Hand(s, w).(userRef := true))
    case DropRef(f) => SetFiber(s, f, s.fibers[f].(userRef := false))
  }

  // ---- The scan -----------------------------------------------------------------------------------

  predicate Scans(s: System, w: WorkerId) {
    w < |s.workers| && s.workers[w].pc.Scanning?
  }

  predicate CanScan(s: System, w: WorkerId, op: ScanOp) {
    match op
    case Lock => w < |s.workers| && s.workers[w].pc == Top && s.lock == None
    case Skip =>
      && Scans(s, w) && s.workers[w].pc.i < |s.queue|
      && var e := s.queue[s.workers[w].pc.i];
      ((e.thread != -1 && e.thread != w)
       || (e.task.FiberTask? && e.task.f < |s.fibers| && s.fibers[e.task.f].state == EXEC))
    case Pick =>
      && Scans(s, w) && s.workers[w].pc.i < |s.queue|
      && var e := s.queue[s.workers[w].pc.i];
      (e.thread == -1 || e.thread == w)
      && (e.task.FiberTask? ==> e.task.f < |s.fibers| && s.fibers[e.task.f].state != EXEC)
    case ScanEnd => Scans(s, w) && s.workers[w].pc.i == |s.queue|
  }

  function ApplyScan(s: System, w: WorkerId, op: ScanOp): System
    requires CanScan(s, w, op)
  {
    match op
    case Lock => SetPc(s, w, Scanning(0)).(lock := Some(w))
    case Skip => SetPc(s, w, Scanning(s.workers[w].pc.i + 1))
    case Pick =>
      var i := s.workers[w].pc.i;
      var pc := match s.queue[i].task
                case FiberTask(f) => Handling(f, Taken, false)
                case CallbackTask(c) => GotCallback(c);
      SetPc(s, w, pc).(queue := s.queue[..i] + s.queue[i + 1..], active := s.active + 1, lock := None)
    case ScanEnd => SetPc(s, w, IdleCheck).(lock := None)
  }

  // ---- Running a task -----------------------------------------------------------------------------

  predicate CanRun(s: System, w: WorkerId, op: RunOp) {
    match op
    case Check => At(s, w, Taken)
    case Prepare =>
      && w < |s.workers| && s.workers[w].pc.GotCallback?
      && (s.workers[w].cbFiber.Some? ==> s.workers[w].cbFiber.value < |s.fibers|)
    case Enter => At(s, w, Entering)
    case Leave(_) => At(s, w, Running)
    case SwapBack => At(s, w, Leaving)
  }

  /** A fiber that is queued while it runs yields to hold next. */
  predicate DisciplinedRun(s: System, w: WorkerId, op: RunOp)
    requires CanRun(s, w, op)
  {
    op.Leave? ==> (Queued(s, s.workers[w].pc.f) ==> op.how == YieldToHold)
  }

  function Entered(x: Fiber): Fiber { x.(state := EXEC, selfRef := true, landing := None) }

  /** The yields (fiber.cpp:177-190) and the end of `MainFunc` (fiber.cpp:200-220). */
  function Left(x: Fiber, how: Exit): Fiber {
    match how
    case YieldToReady => x.(state := READY)
    case YieldToHold => x
    case Return => x.(state := TERM, body := None, selfRef := false)
    case Throw => x.(state := EXCEPT, selfRef := false)
  }

  function ApplyRun(s: System, w: WorkerId, op: RunOp): System
    requires CanRun(s, w, op)
  {
    match op
    case Check =>
      if Hand(s, w).state.Dead() then EndRound(s, w, false).(active := s.active - 1) else SetPhase(s, w, Entering)
    case Prepare =>
      var c := s.workers[w].pc.c;
      (match s.workers[w].cbFiber
       case Some(g) =>
         SetPc(SetFiber(s, g, s.fibers[g].(state := INIT, body := Some(c))), w, Handling(g, Entering, true))
       case None =>
         var g := |s.fibers|;
         s.(fibers := s.fibers + [Fiber(INIT, Some(c), true, false, false, None)],
            workers := s.workers[w := Worker(Handling(g, Entering, true), Some(g), s.workers[w].idle)]))
    case Enter =>
      SetPhase(SetFiber(s, s.workers[w].pc.f, Entered(Hand(s, w))), w, Running)
        .(started := Record(s.started, Pending(Hand(s, w))))
    case Leave(how) => SetPhase(SetFiber(s, s.workers[w].pc.f, Left(Hand(s, w), how)), w, Leaving)
    case SwapBack => SetPhase(s, w, Returned)
  }

  // ---- After a task -------------------------------------------------------------------------------

  predicate CanSettle(s: System, w: WorkerId, op: SettleOp) {
    match op
    case Decrement => At(s, w, Returned)
    case Inspect => At(s, w, Counted)
    case Requeue => At(s, w, Requeueing) && s.lock == None
    case Park => At(s, w, Parking)
    case Recycle => At(s, w, Recycling)
  }

  function ApplySettle(s: System, w: WorkerId, op: SettleOp): System
    requires CanSettle(s, w, op)
  {
    match op
    case Decrement => SetPhase(s, w, Counted).(active := s.active - 1)
    case Inspect =>
      var st := Hand(s, w).state;
      if st == READY then SetPhase(s, w, Requeueing)
      else if !st.Dead() then SetPhase(s, w, Parking)
      else if s.workers[w].pc.viaCb then SetPhase(s, w, Recycling)
      else EndRound(s, w, false)
    case Requeue =>
      EndRound(s, w, s.workers[w].pc.viaCb).(queue := s.queue + [Entry(FiberTask(s.workers[w].pc.f), -1)])
    case Park =>
      EndRound(SetFiber(s, s.workers[w].pc.f, Hand(s, w).(state := HOLD)), w, s.workers[w].pc.viaCb)
    case Recycle =>
      EndRound(SetFiber(s, s.workers[w].pc.f, Hand(s, w).(state := INIT, body := None)), w, false)
  }

  // ---- The idle branch --------------------------------------------------------------------------------

  predicate CanIdle(s: System, w: WorkerId, op: IdleOp) {
    && w < |s.workers|
    && match op
       case IdleStart => s.workers[w].pc == IdleCheck
       case IdleEnter => s.workers[w].pc == IdleEntering
       case IdlePoll => s.workers[w].pc == IdleRunning && s.lock == None
       case IdleDecrement => s.workers[w].pc == IdleReturned
       case IdlePark => s.workers[w].pc == IdleParking
  }

  function ApplyIdle(s: System, w: WorkerId, op: IdleOp): System
    requires CanIdle(s, w, op)
  {
    match op
    case IdleStart =>
      if s.workers[w].idle == TERM then SetPc(s, w, Exited)
      else SetPc(s, w, IdleEntering).(idleCount := s.idleCount + 1)
    case IdleEnter => s.(workers := s.workers[w := s.workers[w].(pc := IdleRunning, idle := EXEC)])
    case IdlePoll =>
      s.(workers := s.workers[w := s.workers[w].(pc := IdleReturned,
                                                 idle := if StoppingNow(s) then TERM else EXEC)])
    case IdleDecrement => SetPc(s, w, IdleParking).(idleCount := s.idleCount - 1)
    case IdlePark =>
      var idle := s.workers[w].idle;
      s.(workers := s.workers[w := s.workers[w].(pc := Top, idle := if idle.Dead() then idle else HOLD)])
  }

  // ---- All steps together -----------------------------------------------------------------------------

  /** The program text allows the step: program counter, lock, and the outcome of the tests that were made. */
  predicate CanStep(s: System, a: Action) {
    match a
    case Main(m) => CanMain(s, m)
    case User(u) => CanUser(s, u)
    case Scan(w, op) => CanScan(s, w, op)
    case Run(w, op) => CanRun(s, w, op)
    case Settle(w, op) => CanSettle(s, w, op)
    case Idle(w, op) => CanIdle(s, w, op)
  }

  predicate Disciplined(s: System, a: Action)
    requires CanStep(s, a)
  {
    match a
    case User(u) => DisciplinedUser(s, u)
    case Run(w, op) => DisciplinedRun(s, w, op)
    case _ => true
  }

  function Apply(s: System, a: Action): System
    requires CanStep(s, a)
  {
    match a
    case Main(m) => ApplyMain(s, m)
    case User(u) => ApplyUser(s, u)
    case Scan(w, op) => ApplyScan(s, w, op)
    case Run(w, op) => ApplyRun(s, w, op)
    case Settle(w, op) => ApplySettle(s, w, op)
    case Idle(w, op) => ApplyIdle(s, w, op)
  }

  /** The SHS_ASSERT conditions on fiber states that the step evaluates. */
  predicate AssertionsHold(s: System, a: Action)
    requires CanStep(s, a)
  {
    match a
    case User(SwitchTo(w, _)) => Hand(s, w).state == EXEC
    case Run(w, Prepare) =>      // Fiber::reset (fiber.cpp:123-125)
      s.workers[w].cbFiber.Some? ==> s.fibers[s.workers[w].cbFiber.value].state.Resettable()
    case Run(w, Enter) => Hand(s, w).state != EXEC                                    // swapIn (fiber.cpp:161)
    case Run(w, Leave(how)) => how.YieldToReady? || how.YieldToHold? ==> Hand(s, w).state == EXEC
    case Settle(w, Recycle) => Hand(s, w).state.Resettable()
    case Idle(w, IdleEnter) => s.workers[w].idle != EXEC
    case Idle(w, IdlePoll) => s.workers[w].idle == EXEC
    case _ => true
  }

  // ---- Runs -----------------------------------------------------------------------------------

  predicate Next(s: System, a: Action, s': System) {
    CanStep(s, a) && Disciplined(s, a) && s' == Apply(s, a)
  }

  predicate StepAt(tr: seq<System>, acts: seq<Action>, k: nat)
    requires k < |acts| && |tr| == |acts| + 1
  {
    Next(tr[k], acts[k], tr[k + 1])
  }

  /** `tr` lists the states of a disciplined run and `acts` the steps between them. */
  predicate IsRun(tr: seq<System>, acts: seq<Action>) {
    && |tr| == |acts| + 1 && Init(tr[0])
    && forall k :: 0 <= k < |acts| ==> StepAt(tr, acts, k)
  }

  // ---- Quantities that the properties speak about -----------------------------------------------

  /** The callback of a fiber that has not been entered yet. */
  function Pending(x: Fiber): Option<Id> {
    if x.state == INIT then x.body else None
  }

  function QueuedCallback(e: Entry): Option<Id> {
    if e.task.CallbackTask? then Some(e.task.c) else None
  }

  function CallbackInHand(wk: Worker): Option<Id> {
    if wk.pc.GotCallback? then Some(wk.pc.c) else None
  }

  /** The worker is between erasing an entry and the matching decrement. */
  predicate IsActive(wk: Worker) {
    wk.pc.GotCallback?
    || (wk.pc.Handling? && (wk.pc.phase.Taken? || wk.pc.phase.Entering? || wk.pc.phase.Running?
                            || wk.pc.phase.Leaving? || wk.pc.phase.Returned?))
  }

  predicate IsIdling(wk: Worker) {
    wk.pc.IdleEntering? || wk.pc.IdleRunning? || wk.pc.IdleReturned?
  }

  /** The worker's processor is on the fiber's stack. */
  predicate Executing(wk: Worker, f: FiberId) {
    wk.pc.Handling? && wk.pc.f == f && (wk.pc.phase.Running? || wk.pc.phase.Leaving?)
  }

  predicate Done(wk: Worker) { wk.pc.Exited? || wk.pc.Skipped? }

  predicate AllDone(s: System) { forall w :: 0 <= w < |s.workers| ==> Done(s.workers[w]) }

  /** Some shared pointer to the fiber exists. */
  predicate Referenced(s: System, f: FiberId)
    requires f < |s.fibers|
  {
    || Queued(s, f) || s.fibers[f].selfRef || s.fibers[f].userRef
    || exists w :: 0 <= w < |s.workers| && Holds(s.workers[w], f)
  }
}
