/**
 What the steps of a run hand to the scheduler and what they start, read off the steps alone. The tallies
 `submitted` and `started` of a state are proved to be these counts, so that the results on callbacks are about
 the calls that were made and not about what the model has noted down.
 */
module WorkerHistory {
  import opened Options
  import opened FiberStates
  import opened Bags
  import opened WorkerSteps

  /** The callback that a step hands over: one that is pushed, or the function of a new fiber. */
  function HandedBy(a: Action): Option<Id> {
    match a
    case User(Push(_, Entry(CallbackTask(c), _))) => Some(c)
    case User(NewFiber(c)) => Some(c)
    case _ => None
  }

  /** The callback that a step starts: that of a fiber in INIT that is entered. */
  function StartedBy(s: System, a: Action): Option<Id> {
    match a
    case Run(w, Enter) =>
      if At(s, w, Entering) && s.fibers[s.workers[w].pc.f].state == INIT then s.fibers[s.workers[w].pc.f].body
      else None
    case _ => None
  }

  /** The step puts the entry into the queue on behalf of user code. */
  predicate Queues(s: System, a: Action, e: Entry) {
    match a
    case User(Push(_, pushed)) => e == pushed
    case User(SwitchTo(w, t)) => At(s, w, Running) && e == Entry(FiberTask(s.workers[w].pc.f), t)
    case _ => false
  }

  /** How many steps hand over the callback. */
  function Handed(acts: seq<Action>, c: Id): nat {
    if acts == [] then 0
    else Handed(acts[..|acts| - 1], c) + if HandedBy(acts[|acts| - 1]) == Some(c) then 1 else 0
  }

  /** How many of the first `k` steps start the callback. */
  function Starts(tr: seq<System>, acts: seq<Action>, k: nat, c: Id): nat
    requires k <= |acts| < |tr|
  {
    if k == 0 then 0
    else Starts(tr, acts, k - 1, c) + if StartedBy(tr[k - 1], acts[k - 1]) == Some(c) then 1 else 0
  }

  /** The tallies of a state follow the step. */
  ghost predicate Tallied(s: System, a: Action, s': System, c: Id) {
    && s'.submitted[c] == s.submitted[c] + (if HandedBy(a) == Some(c) then 1 else 0)
    && s'.started[c] == s.started[c] + (if StartedBy(s, a) == Some(c) then 1 else 0)
  }

  lemma TalliedUser(s: System, u: UserOp, c: Id)
    requires CanUser(s, u)
    ensures Tallied(s, User(u), ApplyUser(s, u), c)
  {
    match u
    case Push(caller, e) => assert e == Entry(e.task, e.thread);
    case _ =>
  }

  lemma TalliedRun(s: System, w: WorkerId, op: RunOp, c: Id)
    requires CanRun(s, w, op)
    ensures Tallied(s, Run(w, op), ApplyRun(s, w, op), c)
  {
    if op == Enter {
      assert Pending(Hand(s, w)) == StartedBy(s, Run(w, Enter));
    }
  }

  lemma TalliedMain(s: System, m: MainOp, c: Id)
    requires CanMain(s, m)
    ensures Tallied(s, Main(m), ApplyMain(s, m), c)
  {
  }

  lemma TalliedScan(s: System, w: WorkerId, op: ScanOp, c: Id)
    requires CanScan(s, w, op)
    ensures Tallied(s, Scan(w, op), ApplyScan(s, w, op), c)
  {
  }

  lemma TalliedSettle(s: System, w: WorkerId, op: SettleOp, c: Id)
    requires CanSettle(s, w, op)
    ensures Tallied(s, Settle(w, op), ApplySettle(s, w, op), c)
  {
  }

  lemma TalliedIdle(s: System, w: WorkerId, op: IdleOp, c: Id)
    requires CanIdle(s, w, op)
    ensures Tallied(s, Idle(w, op), ApplyIdle(s, w, op), c)
  {
  }

  lemma TalliedStep(s: System, a: Action, c: Id)
    requires CanStep(s, a)
    ensures Tallied(s, a, Apply(s, a), c)
  {
    match a
    case Main(m) => TalliedMain(s, m, c);
    case User(u) => TalliedUser(s, u, c);
    case Scan(w, op) => TalliedScan(s, w, op, c);
    case Run(w, op) => TalliedRun(s, w, op, c);
    case Settle(w, op) => TalliedSettle(s, w, op, c);
    case Idle(w, op) => TalliedIdle(s, w, op, c);
  }

  /** In every run, the tallies are the counts of the steps. */
  lemma {:induction false} TalliesAreCounts(tr: seq<System>, acts: seq<Action>, k: nat, c: Id)
    requires IsRun(tr, acts) && k <= |acts|
    ensures tr[k].submitted[c] == Handed(acts[..k], c)
    ensures tr[k].started[c] == Starts(tr, acts, k, c)
  {
    if k > 0 {
      TalliesAreCounts(tr, acts, k - 1, c);
      assert StepAt(tr, acts, k - 1);
      TalliedStep(tr[k - 1], acts[k - 1], c);
      assert acts[..k][..k - 1] == acts[..k - 1];
    }
  }
}
