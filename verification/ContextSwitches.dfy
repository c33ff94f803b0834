/**
 The context switches of src/fiber/fiber.cpp:140-190 on any number of threads. A saved context says on which
 stack and at which point of its code execution continues; `swapcontext` stores the current one in one fiber's
 `m_ctx` and continues with another fiber's, whatever that field happens to hold.
 */
module ContextSwitches {
  type FiberId = nat
  type ThreadId = nat

  datatype Context = Context(stack: FiberId, point: nat)

  /**
   `exec` is the fiber whose stack the processor is on; the other three are the thread-locals `t_fiber`,
   `t_threadFiber` and `t_scheduler_fiber`.
   */
  datatype Thread = Thread(exec: FiberId, tFiber: FiberId, threadFiber: FiberId, mainFiber: FiberId)

  /** `at[f]` is the point that fiber `f`'s code has reached. */
  datatype Machine = Machine(ctx: seq<Context>, at: seq<nat>, threads: seq<Thread>)

  datatype Action =
    | Advance(t: ThreadId)            // any code that does not switch
    | Call(t: ThreadId)               // rootFiber->call()
    | Back(t: ThreadId)               // the root fiber's function has ended
    | SwapIn(t: ThreadId, f: FiberId)
    | SwapOut(t: ThreadId)            // a yield, or the end of a task's function
    | Reset(f: FiberId)               // makecontext: the fiber starts over

  predicate Formed(m: Machine) {
    && |m.ctx| == |m.at|
    && (forall f :: 0 <= f < |m.ctx| ==> m.ctx[f].stack < |m.ctx|)
    && (forall t :: 0 <= t < |m.threads| ==>
          var x := m.threads[t];
          x.exec < |m.ctx| && x.tFiber < |m.ctx| && x.threadFiber < |m.ctx| && x.mainFiber < |m.ctx|)
  }

  /** SetThis(`named`) followed by swapcontext(`save`->m_ctx, `load`->m_ctx) on thread `t`. */
  function Swap(m: Machine, t: ThreadId, named: FiberId, save: FiberId, load: FiberId): (r: Machine)
    requires Formed(m) && t < |m.threads| && named < |m.ctx| && save < |m.ctx| && load < |m.ctx|
    ensures Formed(r)
  {
    var cur := m.threads[t].exec;
    var ctx := m.ctx[save := Context(cur, m.at[cur])];
    var to := ctx[load];
    Machine(ctx, m.at[to.stack := to.point], m.threads[t := m.threads[t].(exec := to.stack, tFiber := named)])
  }

  predicate CanStep(m: Machine, a: Action) {
    match a
    case Advance(t) => t < |m.threads|
    case Call(t) => t < |m.threads|
    case Back(t) => t < |m.threads|
    case SwapIn(t, f) => t < |m.threads| && f < |m.ctx|
    case SwapOut(t) => t < |m.threads|
    case Reset(f) => f < |m.ctx|
  }

  function Apply(m: Machine, a: Action): (r: Machine)
    requires Formed(m) && CanStep(m, a)
    ensures Formed(r)
  {
    match a
    case Advance(t) => m.(at := m.at[m.threads[t].exec := m.at[m.threads[t].exec] + 1])
    case Call(t) => Swap(m, t, m.threads[t].mainFiber, m.threads[t].threadFiber, m.threads[t].mainFiber)
    case Back(t) => Swap(m, t, m.threads[t].threadFiber, m.threads[t].tFiber, m.threads[t].threadFiber)
    case SwapIn(t, f) => Swap(m, t, f, m.threads[t].mainFiber, f)
    case SwapOut(t) => Swap(m, t, m.threads[t].mainFiber, m.threads[t].tFiber, m.threads[t].mainFiber)
    case Reset(f) => m.(ctx := m.ctx[f := Context(f, 0)], at := m.at[f := 0])
  }

  predicate IsRole(x: Thread, f: FiberId) { f == x.threadFiber || f == x.mainFiber }

  /** A fiber that schedulers run: not a thread's own fiber and not a root fiber. */
  predicate IsTask(m: Machine, f: FiberId) {
    forall t :: 0 <= t < |m.threads| ==> !IsRole(m.threads[t], f)
  }

  predicate Executing(m: Machine, f: FiberId) {
    exists t :: 0 <= t < |m.threads| && m.threads[t].exec == f
  }

  /**
   Who calls what: stop() calls the root fiber from the thread's fiber; run() on the scheduling fiber enters task
   fibers that run nowhere; task fibers swap out; the root fiber goes back.
   */
  predicate Allowed(m: Machine, a: Action)
    requires CanStep(m, a)
  {
    match a
    case Advance(_) => true
    case Call(t) => m.threads[t].exec == m.threads[t].threadFiber != m.threads[t].mainFiber
    case Back(t) => m.threads[t].exec == m.threads[t].mainFiber != m.threads[t].threadFiber
    case SwapIn(t, f) => m.threads[t].exec == m.threads[t].mainFiber && IsTask(m, f) && !Executing(m, f)
    case SwapOut(t) => IsTask(m, m.threads[t].exec)
    case Reset(f) => IsTask(m, f) && !Executing(m, f)
  }

  /** Every thread starts on its own fiber; no two threads share one; every context points to its own fiber. */
  predicate Init(m: Machine) {
    && Formed(m)
    && (forall f :: 0 <= f < |m.ctx| ==> m.ctx[f] == Context(f, m.at[f]))
    && (forall t :: 0 <= t < |m.threads| ==>
          m.threads[t].exec == m.threads[t].tFiber == m.threads[t].threadFiber)
    && (forall t, u :: 0 <= t < |m.threads| && 0 <= u < |m.threads| && t != u ==>
          !IsRole(m.threads[u], m.threads[t].threadFiber) && !IsRole(m.threads[u], m.threads[t].mainFiber))
  }

  predicate Next(m: Machine, a: Action, m': Machine) {
    Formed(m) && CanStep(m, a) && Allowed(m, a) && m' == Apply(m, a)
  }

  predicate StepAt(tr: seq<Machine>, acts: seq<Action>, k: nat)
    requires k < |acts| && |tr| == |acts| + 1
  {
    Next(tr[k], acts[k], tr[k + 1])
  }

  predicate IsRun(tr: seq<Machine>, acts: seq<Action>) {
    && |tr| == |acts| + 1 && Init(tr[0])
    && forall k :: 0 <= k < |acts| ==> StepAt(tr, acts, k)
  }

  // ---- What every step keeps ------------------------------------------------------------------------

  ghost predicate Inv(m: Machine) {
    && Formed(m)
    // t_fiber names the fiber whose context executes
    && (forall t :: 0 <= t < |m.threads| ==> m.threads[t].tFiber == m.threads[t].exec)
    // a fiber executes on one thread, and the fibers with a role only on their own thread
    && (forall t, u :: 0 <= t < |m.threads| && 0 <= u < |m.threads| && t != u ==>
          && m.threads[t].exec != m.threads[u].exec && !IsRole(m.threads[u], m.threads[t].exec)
          && !IsRole(m.threads[u], m.threads[t].threadFiber) && !IsRole(m.threads[u], m.threads[t].mainFiber))
    // the context of a fiber that does not execute is its own, at the point that its code has reached
    && (forall f :: 0 <= f < |m.ctx| && !Executing(m, f) ==> m.ctx[f] == Context(f, m.at[f]))
  }

  /** A switch between fibers that keep their own contexts. */
  lemma SwapKeeps(m: Machine, t: ThreadId, load: FiberId)
    requires Inv(m) && t < |m.threads| && load < |m.ctx|
    requires load != m.threads[t].exec && !Executing(m, load)
    requires IsRole(m.threads[t], load) || IsTask(m, load)
    ensures var m' := Swap(m, t, load, m.threads[t].exec, load);
            Inv(m') && m'.at == m.at && m'.threads == m.threads[t := m.threads[t].(exec := load, tFiber := load)]
  {
    var m' := Swap(m, t, load, m.threads[t].exec, load);
    assert m'.at == m.at;
    assert m'.threads[t].exec == load;
    assert forall u :: 0 <= u < |m.threads| && u != t ==> m'.threads[u] == m.threads[u];
    forall f | f != m.threads[t].exec && Executing(m, f) ensures Executing(m', f) {
      var u :| 0 <= u < |m.threads| && m.threads[u].exec == f;
      assert m'.threads[u].exec == f;
    }
  }

  /** Where an allowed step leaves the thread that takes it. */
  function Target(m: Machine, a: Action): FiberId
    requires CanStep(m, a)
  {
    match a
    case Advance(t) => m.threads[t].exec
    case Call(t) => m.threads[t].mainFiber
    case Back(t) => m.threads[t].threadFiber
    case SwapIn(_, f) => f
    case SwapOut(t) => m.threads[t].mainFiber
    case Reset(f) => f
  }

  lemma StepKeeps(m: Machine, a: Action)
    requires Inv(m) && CanStep(m, a) && Allowed(m, a)
    ensures Inv(Apply(m, a))
    ensures a.Call? || a.Back? || a.SwapIn? || a.SwapOut? ==>
              Apply(m, a).at == m.at
              && Apply(m, a).threads == m.threads[a.t := m.threads[a.t].(exec := Target(m, a), tFiber := Target(m, a))]
  {
    if a.Call? || a.Back? || a.SwapIn? || a.SwapOut? {
      SwapKeeps(m, a.t, Target(m, a));
    } else {
      var m' := Apply(m, a);
      assert m'.threads == m.threads;
      forall f ensures Executing(m', f) == Executing(m, f) {}
    }
  }

  lemma {:induction false} RunKeeps(tr: seq<Machine>, acts: seq<Action>, k: nat)
    requires IsRun(tr, acts) && k <= |acts|
    ensures Inv(tr[k])
  {
    if k > 0 {
      RunKeeps(tr, acts, k - 1);
      assert StepAt(tr, acts, k - 1);
      StepKeeps(tr[k - 1], acts[k - 1]);
    }
  }

  /** Roles never change, so neither does what counts as a task. */
  lemma RolesKept(m: Machine, a: Action)
    requires Formed(m) && CanStep(m, a)
    ensures var m' := Apply(m, a);
            |m'.threads| == |m.threads| && |m'.ctx| == |m.ctx|
            && forall t :: 0 <= t < |m.threads| ==>
                 && m'.threads[t].threadFiber == m.threads[t].threadFiber
                 && m'.threads[t].mainFiber == m.threads[t].mainFiber
  {
  }

  /** A fiber that no step continues stays where it is. */
  lemma Frozen(m: Machine, a: Action, f: FiberId)
    requires Inv(m) && CanStep(m, a) && Allowed(m, a)
    requires f < |m.ctx| && !Executing(m, f) && Target(m, a) != f
    ensures !Executing(Apply(m, a), f) && Apply(m, a).at[f] == m.at[f]
  {
    StepKeeps(m, a);
    var m' := Apply(m, a);
    forall t | 0 <= t < |m.threads| ensures m'.threads[t].exec != f {
      assert m'.threads[t].exec == m.threads[t].exec || m'.threads[t].exec == Target(m, a);
    }
  }

  // ---- Switches come in matching pairs ------------------------------------------------------------------

  /** On every thread `t_fiber` names the fiber whose context executes. */
  lemma CurrentFiberIsNamed(tr: seq<Machine>, acts: seq<Action>, k: nat, t: ThreadId)
    requires IsRun(tr, acts) && k <= |acts| && t < |tr[k].threads|
    ensures tr[k].threads[t].tFiber == tr[k].threads[t].exec
  {
    RunKeeps(tr, acts, k);
  }

  lemma OnRun(tr: seq<Machine>, acts: seq<Action>, k: nat)
    requires IsRun(tr, acts) && k < |acts|
    ensures Inv(tr[k]) && Inv(tr[k + 1])
    ensures CanStep(tr[k], acts[k]) && Allowed(tr[k], acts[k]) && tr[k + 1] == Apply(tr[k], acts[k])
  {
    RunKeeps(tr, acts, k);
    RunKeeps(tr, acts, k + 1);
    assert StepAt(tr, acts, k);
  }

  /** Thread `t` runs the task `f` while its scheduling fiber `main` waits at point `p`. */
  ghost predicate InTask(m: Machine, t: ThreadId, f: FiberId, main: FiberId, p: nat) {
    && t < |m.threads| && m.threads[t].exec == f && IsTask(m, f) && m.threads[t].mainFiber == main
    && main < |m.at| && !Executing(m, main) && m.at[main] == p
  }

  lemma EnterTask(tr: seq<Machine>, acts: seq<Action>, k: nat, t: ThreadId, f: FiberId)
    requires IsRun(tr, acts) && k < |acts| && acts[k] == SwapIn(t, f)
    ensures t < |tr[k].threads| && tr[k].threads[t].mainFiber < |tr[k].at|
    ensures InTask(tr[k + 1], t, f, tr[k].threads[t].mainFiber, tr[k].at[tr[k].threads[t].mainFiber])
  {
    OnRun(tr, acts, k);
    StepKeeps(tr[k], acts[k]);
    RolesKept(tr[k], acts[k]);
  }

  lemma StayInTask(tr: seq<Machine>, acts: seq<Action>, k: nat, t: ThreadId, f: FiberId, main: FiberId, p: nat)
    requires IsRun(tr, acts) && k < |acts| && InTask(tr[k], t, f, main, p) && acts[k] != SwapOut(t)
    ensures InTask(tr[k + 1], t, f, main, p)
  {
    OnRun(tr, acts, k);
    StepKeeps(tr[k], acts[k]);
    RolesKept(tr[k], acts[k]);
    assert Target(tr[k], acts[k]) != main;
    Frozen(tr[k], acts[k], main);
  }

  /** Between a swapIn and the next swapOut of the thread the task runs and the scheduling fiber waits. */
  lemma {:induction false} Inside(tr: seq<Machine>, acts: seq<Action>, j: nat, k: nat, t: ThreadId, f: FiberId)
    requires IsRun(tr, acts) && j < k <= |acts| && acts[j] == SwapIn(t, f)
    requires forall i :: j < i < k ==> acts[i] != SwapOut(t)
    ensures t < |tr[j].threads| && tr[j].threads[t].mainFiber < |tr[j].at|
    ensures InTask(tr[k], t, f, tr[j].threads[t].mainFiber, tr[j].at[tr[j].threads[t].mainFiber])
  {
    if k - 1 == j {
      EnterTask(tr, acts, j, t, f);
    } else {
      Inside(tr, acts, j, k - 1, t, f);
      StayInTask(tr, acts, k - 1, t, f, tr[j].threads[t].mainFiber, tr[j].at[tr[j].threads[t].mainFiber]);
    }
  }

  /** A swapOut resumes the scheduling fiber just after the swapIn that entered the task. */
  lemma SwapOutResumesItsSwapIn(tr: seq<Machine>, acts: seq<Action>, j: nat, k: nat, t: ThreadId, f: FiberId)
    requires IsRun(tr, acts) && j < k < |acts| && acts[j] == SwapIn(t, f) && acts[k] == SwapOut(t)
    requires forall i :: j < i < k ==> acts[i] != SwapOut(t)
    ensures t < |tr[j].threads| && t < |tr[k].threads| && t < |tr[k + 1].threads|
    ensures var main := tr[j].threads[t].mainFiber;
            main < |tr[j].at| && main < |tr[k + 1].at| && tr[k].threads[t].exec == f
            && tr[k + 1].threads[t].exec == main && tr[k + 1].at[main] == tr[j].at[main]
  {
    Inside(tr, acts, j, k, t, f);
    OnRun(tr, acts, k);
    StepKeeps(tr[k], acts[k]);
  }

  /** Thread `t` has called its root fiber; the thread's own fiber `own` waits at point `p`. */
  ghost predicate InRoot(m: Machine, t: ThreadId, own: FiberId, p: nat) {
    && t < |m.threads| && m.threads[t].threadFiber == own != m.threads[t].mainFiber
    && own < |m.at| && !Executing(m, own) && m.at[own] == p
  }

  lemma EnterRoot(tr: seq<Machine>, acts: seq<Action>, k: nat, t: ThreadId)
    requires IsRun(tr, acts) && k < |acts| && acts[k] == Call(t)
    ensures t < |tr[k].threads| && tr[k].threads[t].threadFiber < |tr[k].at|
    ensures InRoot(tr[k + 1], t, tr[k].threads[t].threadFiber, tr[k].at[tr[k].threads[t].threadFiber])
  {
    OnRun(tr, acts, k);
    StepKeeps(tr[k], acts[k]);
    RolesKept(tr[k], acts[k]);
  }

  lemma StayInRoot(tr: seq<Machine>, acts: seq<Action>, k: nat, t: ThreadId, own: FiberId, p: nat)
    requires IsRun(tr, acts) && k < |acts| && InRoot(tr[k], t, own, p) && acts[k] != Back(t)
    ensures InRoot(tr[k + 1], t, own, p)
  {
    OnRun(tr, acts, k);
    StepKeeps(tr[k], acts[k]);
    RolesKept(tr[k], acts[k]);
    assert Target(tr[k], acts[k]) != own;
    Frozen(tr[k], acts[k], own);
  }

  lemma {:induction false} InsideCall(tr: seq<Machine>, acts: seq<Action>, j: nat, k: nat, t: ThreadId)
    requires IsRun(tr, acts) && j < k <= |acts| && acts[j] == Call(t)
    requires forall i :: j < i < k ==> acts[i] != Back(t)
    ensures t < |tr[j].threads| && tr[j].threads[t].threadFiber < |tr[j].at|
    ensures InRoot(tr[k], t, tr[j].threads[t].threadFiber, tr[j].at[tr[j].threads[t].threadFiber])
  {
    if k - 1 == j {
      EnterRoot(tr, acts, j, t);
    } else {
      InsideCall(tr, acts, j, k - 1, t);
      StayInRoot(tr, acts, k - 1, t, tr[j].threads[t].threadFiber, tr[j].at[tr[j].threads[t].threadFiber]);
    }
  }

  /** back() resumes the thread's own fiber just after the call() of the root fiber. */
  lemma BackResumesItsCall(tr: seq<Machine>, acts: seq<Action>, j: nat, k: nat, t: ThreadId)
    requires IsRun(tr, acts) && j < k < |acts| && acts[j] == Call(t) && acts[k] == Back(t)
    requires forall i :: j < i < k ==> acts[i] != Back(t)
    ensures t < |tr[j].threads| && t < |tr[k + 1].threads|
    ensures var own := tr[j].threads[t].threadFiber;
            own < |tr[j].at| && own < |tr[k + 1].at|
            && tr[k + 1].threads[t].exec == own && tr[k + 1].at[own] == tr[j].at[own]
  {
    InsideCall(tr, acts, j, k, t);
    OnRun(tr, acts, k);
    StepKeeps(tr[k], acts[k]);
  }

  /** The step continues or restarts fiber `f`. */
  predicate Touches(a: Action, f: FiberId) { (a.SwapIn? && a.f == f) || a == Reset(f) }

  /** The task waits nowhere but in its own context, at point `p`. */
  ghost predicate Waits(m: Machine, f: FiberId, p: nat) {
    f < |m.at| && !Executing(m, f) && IsTask(m, f) && m.at[f] == p
  }

  lemma LeaveTask(tr: seq<Machine>, acts: seq<Action>, k: nat, t: ThreadId)
    requires IsRun(tr, acts) && k < |acts| && acts[k] == SwapOut(t)
    ensures t < |tr[k].threads| && tr[k].threads[t].exec < |tr[k].at|
    ensures Waits(tr[k + 1], tr[k].threads[t].exec, tr[k].at[tr[k].threads[t].exec])
  {
    OnRun(tr, acts, k);
    StepKeeps(tr[k], acts[k]);
    RolesKept(tr[k], acts[k]);
  }

  lemma StayWaiting(tr: seq<Machine>, acts: seq<Action>, k: nat, f: FiberId, p: nat)
    requires IsRun(tr, acts) && k < |acts| && Waits(tr[k], f, p) && !Touches(acts[k], f)
    ensures Waits(tr[k + 1], f, p)
  {
    OnRun(tr, acts, k);
    RolesKept(tr[k], acts[k]);
    assert Target(tr[k], acts[k]) != f;
    Frozen(tr[k], acts[k], f);
  }

  lemma {:induction false} Suspended(tr: seq<Machine>, acts: seq<Action>, j: nat, k: nat, f: FiberId)
    requires IsRun(tr, acts) && j < k <= |acts| && acts[j].SwapOut?
    requires acts[j].t < |tr[j].threads| && tr[j].threads[acts[j].t].exec == f
    requires forall i :: j < i < k ==> !Touches(acts[i], f)
    ensures f < |tr[j].at| && Waits(tr[k], f, tr[j].at[f])
  {
    if k - 1 == j {
      LeaveTask(tr, acts, j, acts[j].t);
    } else {
      Suspended(tr, acts, j, k - 1, f);
      StayWaiting(tr, acts, k - 1, f, tr[j].at[f]);
    }
  }

  /** A swapIn, on whatever thread, resumes the task just after the switch with which it last left. */
  lemma SwapInResumesAfterLastYield(tr: seq<Machine>, acts: seq<Action>, j: nat, k: nat,
                                    t: ThreadId, u: ThreadId, f: FiberId)
    requires IsRun(tr, acts) && j < k < |acts| && acts[j] == SwapOut(t) && acts[k] == SwapIn(u, f)
    requires t < |tr[j].threads| && tr[j].threads[t].exec == f
    requires forall i :: j < i < k ==> !Touches(acts[i], f)
    ensures u < |tr[k + 1].threads| && f < |tr[j].at| && f < |tr[k + 1].at|
    ensures tr[k + 1].threads[u].exec == f && tr[k + 1].at[f] == tr[j].at[f]
  {
    Suspended(tr, acts, j, k, f);
    OnRun(tr, acts, k);
    StepKeeps(tr[k], acts[k]);
  }

  lemma ResetTask(tr: seq<Machine>, acts: seq<Action>, k: nat, f: FiberId)
    requires IsRun(tr, acts) && k < |acts| && acts[k] == Reset(f)
    ensures Waits(tr[k + 1], f, 0)
  {
    OnRun(tr, acts, k);
    StepKeeps(tr[k], acts[k]);
    RolesKept(tr[k], acts[k]);
  }

  lemma {:induction false} AtItsStart(tr: seq<Machine>, acts: seq<Action>, j: nat, k: nat, f: FiberId)
    requires IsRun(tr, acts) && j < k <= |acts| && acts[j] == Reset(f)
    requires forall i :: j < i < k ==> !Touches(acts[i], f)
    ensures Waits(tr[k], f, 0)
  {
    if k - 1 == j {
      ResetTask(tr, acts, j, f);
    } else {
      AtItsStart(tr, acts, j, k - 1, f);
      StayWaiting(tr, acts, k - 1, f, 0);
    }
  }

  /** The first swapIn after a reset, on whatever thread, runs the fiber from the beginning of its new function. */
  lemma SwapInStartsAfterReset(tr: seq<Machine>, acts: seq<Action>, j: nat, k: nat, u: ThreadId, f: FiberId)
    requires IsRun(tr, acts) && j < k < |acts| && acts[j] == Reset(f) && acts[k] == SwapIn(u, f)
    requires forall i :: j < i < k ==> !Touches(acts[i], f)
    ensures u < |tr[k + 1].threads| && f < |tr[k + 1].at|
    ensures tr[k + 1].threads[u].exec == f && tr[k + 1].at[f] == 0
  {
    AtItsStart(tr, acts, j, k, f);
    OnRun(tr, acts, k);
    StepKeeps(tr[k], acts[k]);
  }

  /** The thread runs its scheduling fiber, and the entered fiber runs nowhere and belongs to no other thread. */
  ghost predicate MayEnter(m: Machine, t: ThreadId, f: FiberId)
    requires CanStep(m, SwapIn(t, f))
  {
    && m.threads[t].exec == m.threads[t].mainFiber
    && !Executing(m, f)
    && forall u :: 0 <= u < |m.threads| && u != t ==> !IsRole(m.threads[u], f)
  }

  /**
   What a swapIn needs: from a good state it leads to a good one exactly if the scheduling fiber enters a fiber
   that runs nowhere and belongs to no other thread. The one exception is the switch of the scheduling fiber to
   itself, which changes nothing and which the assertion in swapIn forbids.
   */
  lemma SwapInKeepsIff(m: Machine, t: ThreadId, f: FiberId)
    requires Inv(m) && CanStep(m, SwapIn(t, f))
    ensures Inv(Apply(m, SwapIn(t, f)))
      <==> MayEnter(m, t, f) || f == m.threads[t].exec == m.threads[t].mainFiber
  {
    var main := m.threads[t].mainFiber;
    if MayEnter(m, t, f) {
      SwapInKeeps(m, t, f);
    } else if f == m.threads[t].exec == main {
      SelfSwapKeeps(m, t);
    } else {
      SwapInBreaks(m, t, f);
    }
  }

  lemma SwapInKeeps(m: Machine, t: ThreadId, f: FiberId)
    requires Inv(m) && CanStep(m, SwapIn(t, f)) && MayEnter(m, t, f)
    ensures Inv(Apply(m, SwapIn(t, f)))
  {
    var m' := Apply(m, SwapIn(t, f));
    assert m'.at == m.at && m'.threads[t].exec == f == m'.threads[t].tFiber;
    assert forall u :: 0 <= u < |m.threads| && u != t ==> m'.threads[u] == m.threads[u];
    forall g | g != m.threads[t].exec && Executing(m, g) ensures Executing(m', g) {
      var u :| 0 <= u < |m.threads| && m.threads[u].exec == g;
      assert m'.threads[u].exec == g;
    }
  }

  lemma SelfSwapKeeps(m: Machine, t: ThreadId)
    requires Inv(m) && t < |m.threads| && m.threads[t].exec == m.threads[t].mainFiber
    ensures Inv(Apply(m, SwapIn(t, m.threads[t].exec)))
  {
    var m' := Apply(m, SwapIn(t, m.threads[t].exec));
    assert m'.threads == m.threads && m'.at == m.at;
    forall g ensures Executing(m', g) == Executing(m, g) {}
    assert Executing(m, m.threads[t].exec);
  }

  lemma SwapInBreaks(m: Machine, t: ThreadId, f: FiberId)
    requires Inv(m) && CanStep(m, SwapIn(t, f)) && !MayEnter(m, t, f)
    requires !(f == m.threads[t].exec == m.threads[t].mainFiber)
    ensures !Inv(Apply(m, SwapIn(t, f)))
  {
    var m' := Apply(m, SwapIn(t, f));
    var cur, main := m.threads[t].exec, m.threads[t].mainFiber;
    assert forall u :: 0 <= u < |m.threads| && u != t ==> m'.threads[u] == m.threads[u];
    assert m'.threads[t].tFiber == f;
    if m'.threads[t].exec == f {
      if cur != main {
        assert f != main && !Executing(m', main) && m'.ctx[main] == Context(cur, m.at[cur]);
      } else {
        assert exists u :: 0 <= u < |m.threads| && u != t && (m.threads[u].exec == f || IsRole(m.threads[u], f));
      }
    }
  }

  /** A task that enters another task loses the scheduling fiber: the next swapOut returns to the wrong stack. */
  lemma NestedSwapInGoesAstray(p: nat, q: nat)
    ensures var m := Machine([Context(0, p), Context(1, q), Context(2, 0)], [p, q, 0], [Thread(0, 0, 0, 0)]);
            && Init(m) && Next(m, SwapIn(0, 1), Apply(m, SwapIn(0, 1)))
            && var m1 := Apply(m, SwapIn(0, 1));
               CanStep(m1, SwapIn(0, 2)) && !Allowed(m1, SwapIn(0, 2))
               && Apply(Apply(m1, SwapIn(0, 2)), SwapOut(0)).threads[0].exec == 1
               && Apply(Apply(m1, SwapIn(0, 2)), SwapOut(0)).threads[0].tFiber == 0
  {
  }
}
