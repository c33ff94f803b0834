/** How the functions of fibers end, and what can be seen of it later (src/fiber/fiber.cpp:197-220). */
module WorkerEnds {
  import opened FiberStates
  import opened WorkerInvariants
  import opened WorkerSteps
  import opened WorkerTasks
  import opened WorkerTheorems

  /** The state that a function leaves behind when it ends: TERM after a return, EXCEPT after an exception. */
  predicate EndsAs(s: System, a: Action, f: FiberId, st: State) {
    (st == TERM && Leaves(s, a, f, Return)) || (st == EXCEPT && Leaves(s, a, f, Throw))
  }

  /** Only fibers that run() has made itself are reused. */
  ghost predicate SparesArePooled(s: System) {
    forall w :: 0 <= w < |s.workers| && s.workers[w].cbFiber.Some? && s.workers[w].cbFiber.value < |s.fibers| ==>
      s.fibers[s.workers[w].cbFiber.value].pooled
  }

  /** What a step does to a fiber that user code has made. */
  ghost predicate EndKept(s: System, a: Action, s': System, f: FiberId, st: State)
    requires f < |s.fibers|
  {
    && f < |s'.fibers| && s'.fibers[f].pooled == s.fibers[f].pooled
    && (!s.fibers[f].pooled ==> (s'.fibers[f].state == st <==> s.fibers[f].state == st || EndsAs(s, a, f, st)))
  }

  lemma EndRun(s: System, w: WorkerId, op: RunOp, f: FiberId, st: State)
    requires CanRun(s, w, op) && WorkerFits(s, w, s.workers[w]) && SparesArePooled(s)
    requires f < |s.fibers| && st.Dead()
    ensures EndKept(s, Run(w, op), ApplyRun(s, w, op), f, st)
  {
  }

  lemma EndSettle(s: System, w: WorkerId, op: SettleOp, f: FiberId, st: State)
    requires CanSettle(s, w, op) && WorkerFits(s, w, s.workers[w]) && SparesArePooled(s)
    requires f < |s.fibers| && st.Dead()
    ensures EndKept(s, Settle(w, op), ApplySettle(s, w, op), f, st)
  {
  }

  lemma EndUser(s: System, u: UserOp, f: FiberId, st: State)
    requires CanUser(s, u) && f < |s.fibers| && st.Dead()
    ensures EndKept(s, User(u), ApplyUser(s, u), f, st)
  {
  }

  lemma EndStep(s: System, a: Action, f: FiberId, st: State)
    requires Shape(s) && CanStep(s, a) && SparesArePooled(s) && f < |s.fibers| && st.Dead()
    ensures EndKept(s, a, Apply(s, a), f, st)
  {
    match a
    case User(u) => EndUser(s, u, f, st);
    case Run(w, op) =>
      assert WorkerFits(s, w, s.workers[w]);
      EndRun(s, w, op, f, st);
    case Settle(w, op) =>
      assert WorkerFits(s, w, s.workers[w]);
      EndSettle(s, w, op, f, st);
    case _ => assert Apply(s, a).fibers == s.fibers;
  }

  /** Each worker keeps its spare fiber, gives it up, or has just made one. */
  ghost predicate SparesFrom(s: System, s': System) {
    && |s'.workers| == |s.workers|
    && forall w: WorkerId :: w < |s.workers| && s'.workers[w].cbFiber.Some? ==>
         s'.workers[w].cbFiber == s.workers[w].cbFiber
         || (|s'.fibers| == |s.fibers| + 1 && s'.workers[w].cbFiber.value == |s.fibers| && s'.fibers[|s.fibers|].pooled)
  }

  lemma SparesFromPrepare(s: System, w: WorkerId)
    requires CanRun(s, w, Prepare)
    ensures SparesFrom(s, ApplyRun(s, w, Prepare))
  {
  }

  lemma SparesFromRun(s: System, w: WorkerId, op: RunOp)
    requires CanRun(s, w, op)
    ensures SparesFrom(s, ApplyRun(s, w, op))
  {
    if op == Prepare {
      SparesFromPrepare(s, w);
    }
  }

  lemma SparesFromSettle(s: System, w: WorkerId, op: SettleOp)
    requires CanSettle(s, w, op)
    ensures SparesFrom(s, ApplySettle(s, w, op))
  {
  }

  lemma SparesFromIdle(s: System, w: WorkerId, op: IdleOp)
    requires CanIdle(s, w, op)
    ensures SparesFrom(s, ApplyIdle(s, w, op))
  {
  }

  lemma SparesFromMain(s: System, m: MainOp)
    requires CanMain(s, m)
    ensures SparesFrom(s, ApplyMain(s, m))
  {
  }

  lemma SparesFromScan(s: System, w: WorkerId, op: ScanOp)
    requires CanScan(s, w, op)
    ensures SparesFrom(s, ApplyScan(s, w, op))
  {
  }

  lemma SparesFromStep(s: System, a: Action)
    requires CanStep(s, a)
    ensures SparesFrom(s, Apply(s, a))
  {
    match a
    case Main(m) => SparesFromMain(s, m);
    case User(u) => assert Apply(s, a).workers == s.workers;
    case Scan(w, op) => SparesFromScan(s, w, op);
    case Run(w, op) => SparesFromRun(s, w, op);
    case Settle(w, op) => SparesFromSettle(s, w, op);
    case Idle(w, op) => SparesFromIdle(s, w, op);
  }

  lemma SparesStep(s: System, a: Action)
    requires Shape(s) && CanStep(s, a) && SparesArePooled(s)
    ensures SparesArePooled(Apply(s, a))
  {
    var s' := Apply(s, a);
    SparesFromStep(s, a);
    forall f: FiberId | f < |s.fibers| ensures EndKept(s, a, s', f, TERM) {
      EndStep(s, a, f, TERM);
    }
    SparesKept(s, a, s');
  }

  lemma SparesKept(s: System, a: Action, s': System)
    requires SparesArePooled(s) && SparesFrom(s, s')
    requires forall w :: 0 <= w < |s.workers| ==> WorkerFits(s, w, s.workers[w])
    requires forall f: FiberId :: f < |s.fibers| ==> EndKept(s, a, s', f, TERM)
    ensures SparesArePooled(s')
  {
    forall w | 0 <= w < |s'.workers| && s'.workers[w].cbFiber.Some? && s'.workers[w].cbFiber.value < |s'.fibers|
      ensures s'.fibers[s'.workers[w].cbFiber.value].pooled
    {
      assert WorkerFits(s, w, s.workers[w]);
      if s'.workers[w].cbFiber == s.workers[w].cbFiber {
        assert EndKept(s, a, s', s.workers[w].cbFiber.value, TERM);
      }
    }
  }

  lemma {:induction false} SparesRun(tr: seq<System>, acts: seq<Action>, k: nat)
    requires IsRun(tr, acts) && k <= |acts|
    ensures SparesArePooled(tr[k])
  {
    if k > 0 {
      SparesRun(tr, acts, k - 1);
      OnRun(tr, acts, k - 1);
      SparesStep(tr[k - 1], acts[k - 1]);
    }
  }

  lemma EndNext(tr: seq<System>, acts: seq<Action>, k: nat, f: FiberId, st: State)
    requires IsRun(tr, acts) && k < |acts| && st.Dead()
    ensures f < |tr[k].fibers| ==> EndKept(tr[k], acts[k], tr[k + 1], f, st)
    ensures |tr[k].fibers| <= f < |tr[k + 1].fibers| ==> tr[k + 1].fibers[f].state == INIT
    ensures f >= |tr[k].fibers| ==> !EndsAs(tr[k], acts[k], f, st)
  {
    OnRun(tr, acts, k);
    SparesRun(tr, acts, k);
    if f < |tr[k].fibers| {
      EndStep(tr[k], acts[k], f, st);
    } else {
      NewFibersWait(tr[k], acts[k], f);
    }
  }

  predicate WaitsIfThere(s: System, f: FiberId) { f < |s.fibers| ==> s.fibers[f].state == INIT }

  lemma NewByMain(s: System, m: MainOp, f: FiberId)
    requires CanMain(s, m) && f >= |s.fibers|
    ensures WaitsIfThere(ApplyMain(s, m), f)
  {
  }

  lemma NewByUser(s: System, u: UserOp, f: FiberId)
    requires CanUser(s, u) && f >= |s.fibers|
    ensures WaitsIfThere(ApplyUser(s, u), f)
  {
  }

  lemma NewByScan(s: System, w: WorkerId, op: ScanOp, f: FiberId)
    requires CanScan(s, w, op) && f >= |s.fibers|
    ensures WaitsIfThere(ApplyScan(s, w, op), f)
  {
  }

  lemma NewByRun(s: System, w: WorkerId, op: RunOp, f: FiberId)
    requires CanRun(s, w, op) && f >= |s.fibers|
    ensures WaitsIfThere(ApplyRun(s, w, op), f)
  {
  }

  lemma NewBySettle(s: System, w: WorkerId, op: SettleOp, f: FiberId)
    requires CanSettle(s, w, op) && f >= |s.fibers|
    ensures WaitsIfThere(ApplySettle(s, w, op), f)
  {
  }

  lemma NewByIdle(s: System, w: WorkerId, op: IdleOp, f: FiberId)
    requires CanIdle(s, w, op) && f >= |s.fibers|
    ensures WaitsIfThere(ApplyIdle(s, w, op), f)
  {
  }

  lemma NewFibersWait(s: System, a: Action, f: FiberId)
    requires CanStep(s, a) && f >= |s.fibers|
    ensures WaitsIfThere(Apply(s, a), f)
  {
    match a
    case Main(m) => NewByMain(s, m, f);
    case User(u) => NewByUser(s, u, f);
    case Scan(w, op) => NewByScan(s, w, op, f);
    case Run(w, op) => NewByRun(s, w, op, f);
    case Settle(w, op) => NewBySettle(s, w, op, f);
    case Idle(w, op) => NewByIdle(s, w, op, f);
  }

  /**
   A fiber that user code has made is TERM exactly if its function has returned, and EXCEPT exactly if an exception
   has left it; so it never runs again after that.
   */
  lemma {:induction false} EndedExactly(tr: seq<System>, acts: seq<Action>, k: nat, f: FiberId, st: State)
    requires IsRun(tr, acts) && k <= |acts| && f < |tr[k].fibers| && !tr[k].fibers[f].pooled && st.Dead()
    ensures tr[k].fibers[f].state == st <==> exists j :: 0 <= j < k && EndsAs(tr[j], acts[j], f, st)
  {
    if k > 0 {
      EndNext(tr, acts, k - 1, f, st);
      if f < |tr[k - 1].fibers| {
        assert EndKept(tr[k - 1], acts[k - 1], tr[k], f, st);
        EndedExactly(tr, acts, k - 1, f, st);
      } else {
        NeverSeen(tr, acts, k - 1, f, st);
      }
    }
  }

  lemma {:induction false} NeverSeen(tr: seq<System>, acts: seq<Action>, k: nat, f: FiberId, st: State)
    requires IsRun(tr, acts) && k <= |acts| && f >= |tr[k].fibers| && st.Dead()
    ensures forall j :: 0 <= j < k ==> !EndsAs(tr[j], acts[j], f, st)
  {
    if k > 0 {
      EndNext(tr, acts, k - 1, f, st);
      NeverSeen(tr, acts, k - 1, f, st);
    }
  }
}
