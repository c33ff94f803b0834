/**
 `Scheduler(1, true)`: no worker threads, so stop() itself runs the loop of `Scheduler::run` on the root fiber
 (src/scheduler/scheduler.cpp:13-34, 74-130, 136-231). Fibers are objects whose saved context is the program
 that remains; the functions that run on them are finite task programs.
 */
module OneWorker {
  import opened Options
  import opened FiberStates
  import opened Sequences
  import opened TaskPrograms

  class Fiber {
    var state: State
    var body: Option<Prog>   // m_cb
    var code: Prog           // what the saved context executes next

    constructor (cb: Prog)
      ensures state == INIT && body == Some(cb) && code == cb
    {
      state, body, code := INIT, Some(cb), cb;
    }

    /** `Fiber::reset`; a null function throws when it is called. */
    method Reset(cb: Option<Prog>)
      requires state.Resettable()
      modifies this
      ensures state == INIT && body == cb && code == (if cb.Some? then cb.value else Throw)
    {
      body := cb;
      code := if cb.Some? then cb.value else Throw;
      state := INIT;
    }
  }

  /** One element of `m_fibers`; both parts null is an entry that schedule() does not push. */
  datatype Entry = Entry(fiber: Fiber?, cb: Option<Prog>, thread: int)

  /** An element of a range that is scheduled at once: a pointer to a fiber or to a function. */
  datatype Job = Job(fiber: Fiber?, cb: Option<Prog>)

  /** The entries for the elements of a range, for any thread. */
  function Entries(jobs: seq<Job>): seq<Entry> {
    seq(|jobs|, k requires 0 <= k < |jobs| => Entry(jobs[k].fiber, jobs[k].cb, -1))
  }

  ghost predicate Distinct(q: seq<Entry>) {
    forall i, j :: 0 <= i < j < |q| && q[i].fiber != null ==> q[i].fiber != q[j].fiber
  }

  function Fibers(q: seq<Entry>): set<Fiber?> { set e | e in q :: e.fiber }

  /** What an entry will still execute; a dead fiber is discarded. */
  ghost function View(e: Entry): seq<Prog>
    reads e.fiber
  {
    if e.fiber != null then (if e.fiber.state.Dead() then [] else [e.fiber.code])
    else if e.cb.Some? then [e.cb.value] else []
  }

  ghost function Views(q: seq<Entry>): seq<Prog>
    reads Fibers(q)
  {
    if q == [] then [] else View(q[0]) + Views(q[1..])
  }

  lemma {:induction false} ViewsConcat(a: seq<Entry>, b: seq<Entry>)
    ensures Views(a + b) == Views(a) + Views(b)
  {
    if a == [] {
      assert a + b == b;
    } else {
      assert (a + b)[1..] == a[1..] + b;
      ViewsConcat(a[1..], b);
    }
  }

  /** Entries whose fibers keep state and code keep their views. */
  twostate lemma {:induction false} ViewsKept(q: seq<Entry>)
    requires forall e :: e in q ==> old(allocated(e.fiber))
    requires forall e :: e in q && e.fiber != null ==>
               e.fiber.code == old(e.fiber.code) && e.fiber.state.Dead() == old(e.fiber.state.Dead())
    ensures Views(q) == old(Views(q))
  {
    if q != [] {
      assert q[0] in q;
      ViewsKept(q[1..]);
    }
  }

  class Scheduler {
    const me: int               // the id of the only thread
    var queue: seq<Entry>
    var active: int
    var idleCount: int
    var stopping: bool
    var autoStop: bool
    var rootState: State        // of m_rootFiber
    var out: seq<nat>           // the outputs of the task programs, in order

    constructor (thread: int)
      requires thread != -1
      ensures me == thread && queue == [] && active == 0 && idleCount == 0 && stopping && !autoStop
      ensures rootState == INIT && out == []
    {
      me := thread;
      queue, active, idleCount, stopping, autoStop, rootState, out := [], 0, 0, true, false, INIT, [];
    }

    /** An entry that this worker may run: one task, not pinned elsewhere, following the discipline. */
    ghost predicate EntryOk(e: Entry)
      reads e.fiber
    {
      && (e.fiber != null <==> e.cb.None?)
      && (e.thread == -1 || e.thread == me)
      && (e.fiber != null ==> e.fiber.state.Dead() || Tidy(e.fiber.code, false))
      && (e.cb.Some? ==> Tidy(e.cb.value, false))
    }

    ghost predicate QueueOk()
      reads this`queue, Fibers(queue)
    {
      Distinct(queue) && forall e :: e in queue ==> EntryOk(e)
    }

    /** Between rounds no fiber is EXEC. */
    ghost predicate Settled()
      reads this`queue, Fibers(queue)
    {
      forall e :: e in queue && e.fiber != null ==> e.fiber.state != EXEC
    }

    /** At most `f` is EXEC. */
    ghost predicate OthersSettled(f: Fiber)
      reads this`queue, Fibers(queue)
    {
      forall e :: e in queue && e.fiber != null && e.fiber != f ==> e.fiber.state != EXEC
    }

    predicate Stopping()
      reads this
    {
      autoStop && stopping && queue == [] && active == 0
    }

    method Schedule(e: Entry) returns (needTickle: bool)
      modifies this`queue
      ensures needTickle == (old(queue) == [])
      ensures queue == old(queue) + (if e.fiber != null || e.cb.Some? then [e] else [])
    {
      needTickle := queue == [];
      if e.fiber != null || e.cb.Some? {
        queue := queue + [e];
      }
    }

    /**
     schedule(begin, end): one critical section for the whole range, with the null entries left out. The range is
     left with nulls, because every element is swapped into its entry.
     */
    method ScheduleAll(jobs: array<Job>) returns (needTickle: bool)
      modifies this`queue, jobs
      ensures needTickle == (old(queue) == [] && jobs.Length != 0)
      ensures queue == old(queue) + NonNull(Entries(old(jobs[..])))
      ensures forall k :: 0 <= k < jobs.Length ==> jobs[k] == Job(null, None)
    {
      needTickle := false;
      var i := 0;
      assert old(jobs[..0]) == [];
      while i < jobs.Length
        invariant 0 <= i <= jobs.Length
        invariant queue == old(queue) + NonNull(Entries(old(jobs[..])[..i]))
        invariant forall k :: 0 <= k < i ==> jobs[k] == Job(null, None)
        invariant forall k :: i <= k < jobs.Length ==> jobs[k] == old(jobs[k])
        invariant needTickle == (old(queue) == [] && i > 0)
      {
        EntriesAppend(old(jobs[..]), i);
        var e := Entry(jobs[i].fiber, jobs[i].cb, -1);
        jobs[i] := Job(null, None);
        var first := Schedule(e);
        needTickle := first || needTickle;
        i := i + 1;
      }
      assert old(jobs[..])[..i] == old(jobs[..]);
    }

    predicate Eligible(e: Entry)
      reads e.fiber
    {
      (e.thread == -1 || e.thread == me) && (e.fiber != null ==> e.fiber.state != EXEC)
    }

    /** The scan under the lock (scheduler.cpp:152-175): the first eligible entry is erased. */
    method TakeFirst() returns (found: bool, ft: Entry)
      modifies this`queue, this`active
      ensures found ==>
                exists i :: 0 <= i < |old(queue)| && Eligible(old(queue)[i]) && ft == old(queue)[i]
                  && (forall j :: 0 <= j < i ==> !Eligible(old(queue)[j]))
                  && queue == old(queue)[..i] + old(queue)[i + 1..]
      ensures !found ==> queue == old(queue) && forall j :: 0 <= j < |queue| ==> !Eligible(queue[j])
      ensures active == old(active) + if found then 1 else 0
    {
      found, ft := false, Entry(null, None, -1);
      var i := 0;
      while i < |queue|
        invariant 0 <= i <= |queue| && queue == old(queue) && active == old(active) && !found
        invariant forall j :: 0 <= j < i ==> !Eligible(queue[j])
      {
        if queue[i].thread != -1 && queue[i].thread != me {
          i := i + 1;
          continue;
        }
        if queue[i].fiber != null && queue[i].fiber.state == EXEC {
          i := i + 1;
          continue;
        }
        found, ft := true, queue[i];
        queue := queue[..i] + queue[i + 1..];
        active := active + 1;
        return;
      }
    }

    /** start() without worker threads (scheduler.cpp:51-65). */
    method Start()
      modifies this`stopping
      ensures !stopping
    {
      stopping := false;
    }

    /** Entry `e` stands for the program `p`, or for `f` itself if `p` is `None`. */
    ghost predicate StandsFor(e: Entry, p: Option<Prog>, f: Fiber)
      reads e.fiber
    {
      match p
      case None => e == Entry(f, None, -1)
      case Some(c) =>
        Tidy(c, false)
        && (e == Entry(null, p, -1)
            || (e.fiber != null && e.fiber != f && e.cb == None && e.thread == -1
                && e.fiber.state == INIT && e.fiber.code == c))
    }

    ghost predicate Stands(es: seq<Entry>, ps: seq<Option<Prog>>, f: Fiber)
      reads Fibers(es)
    {
      |es| == |ps| && forall i :: 0 <= i < |es| ==> StandsFor(es[i], ps[i], f)
    }

    /** One instruction that does not leave the fiber: what it writes and queues, and where it continues. */
    method Execute(f: Fiber, pc: Prog, ghost queued: bool)
      returns (next: Prog, ghost es: seq<Entry>, ghost ps: seq<Option<Prog>>, ghost queued': bool)
      requires !pc.Leaves() && Tidy(pc, queued)
      modifies this`queue, this`out
      ensures next < pc
      ensures out + Marks(next) == old(out) + Marks(pc) && queue == old(queue) + es
      ensures Leaving(next) == Leaving(pc) && Tidy(next, queued') && Requests(pc) == ps + Requests(next)
      ensures |es| == |ps| <= 1 && (|es| == 1 ==> StandsFor(es[0], ps[0], f))
      ensures |es| == 1 && es[0].fiber != null ==> fresh(es[0].fiber) || (es[0].fiber == f && !queued && ps[0] == None)
      ensures queued' == (queued || ps == [None])
    {
      next, es, ps, queued' := pc.rest, [], [], queued || pc.QueueSelf?;
      match pc {
        case Mark(l, _) => out := out + [l];
        case SpawnCallback(c, _) =>
          es, ps := [Entry(null, Some(c), -1)], [Some(c)];
          var _ := Schedule(Entry(null, Some(c), -1));
        case SpawnFiber(c, _) =>
          var g := new Fiber(c);
          es, ps := [Entry(g, None, -1)], [Some(c)];
          var _ := Schedule(Entry(g, None, -1));
        case QueueSelf(_) =>
          es, ps := [Entry(f, None, -1)], [None];
          var _ := Schedule(Entry(f, None, -1));
      }
    }

    /** The entries `added` since `q0` are distinct and stand for `issued`; `f` is among them only if `queued`. */
    ghost predicate Added(q0: seq<Entry>, added: seq<Entry>, issued: seq<Option<Prog>>, f: Fiber, queued: bool)
      reads Fibers(added)
    {
      && Distinct(q0 + added) && Stands(added, issued, f)
      && (f in Fibers(q0 + added) || None in issued ==> queued)
    }

    lemma AddedAppend(q0: seq<Entry>, added: seq<Entry>, issued: seq<Option<Prog>>, f: Fiber, queued: bool,
                      e: Entry, p: Option<Prog>)
      requires Added(q0, added, issued, f, queued) && StandsFor(e, p, f)
      requires e.fiber != null ==> e.fiber !in Fibers(q0 + added)
      ensures Added(q0, added + [e], issued + [p], f, queued || p == None)
      ensures q0 + added + [e] == q0 + (added + [e])
    {
      assert q0 + (added + [e]) == (q0 + added) + [e];
      assert forall g: Entry :: g in q0 + added ==> g.fiber in Fibers(q0 + added);
    }

    /** The fiber's function up to the instruction that leaves it. */
    method RunSegment(f: Fiber) returns (pc: Prog, ghost added: seq<Entry>)
      requires f.state == EXEC && Tidy(f.code, false) && Distinct(queue) && f !in Fibers(queue)
      modifies this`queue, this`out
      ensures pc == Leaving(f.code) && out == old(out) + Marks(f.code)
      ensures queue == old(queue) + added && Added(old(queue), added, Requests(f.code), f, pc.YieldToHold?)
      ensures forall e :: e in added && e.fiber != null ==> e.fiber == f || fresh(e.fiber)
    {
      pc, added := f.code, [];
      ghost var q0, issued: seq<Option<Prog>>, queued := queue, [], false;
      assert q0 + added == q0;
      while !pc.Leaves()
        invariant out + Marks(pc) == old(out) + Marks(f.code)
        invariant queue == q0 + added && Added(q0, added, issued, f, queued)
        invariant issued + Requests(pc) == Requests(f.code)
        invariant Leaving(pc) == Leaving(f.code) && Tidy(pc, queued)
        invariant forall e :: e in added && e.fiber != null ==> e.fiber == f || fresh(e.fiber)
        decreases pc
      {
        ghost var es, ps, queued';
        pc, es, ps, queued' := Execute(f, pc, queued);
        if |es| == 1 {
          assert es == [es[0]] && ps == [ps[0]];
          AddedAppend(q0, added, issued, f, queued, es[0], ps[0]);
        }
        Associative(q0, added, es);
        Associative(issued, ps, Requests(pc));
        added, issued, queued := added + es, issued + ps, queued';
      }
      assert issued + [] == issued;
    }

    /** The switch away: a yield saves the continuation, an end writes the final state (fiber.cpp:177-223). */
    method Depart(f: Fiber, pc: Prog)
      requires pc.Leaves() && f.state == EXEC
      modifies f
      ensures f.state == StateAfter(pc)
      ensures pc.Return? ==> f.state == TERM && f.body == None
      ensures pc.Throw? ==> f.state == EXCEPT && f.body == old(f.body)
      ensures f.code == (if pc.YieldToReady? || pc.YieldToHold? then pc.rest else old(f.code))
    {
      match pc {
        case YieldToReady(k) => f.state, f.code := READY, k;
        case YieldToHold(k) => f.code := k;
        case Return => f.body, f.state := None, TERM;
        case Throw => f.state := EXCEPT;
      }
    }

    /** `swapIn`: runs one segment of the fiber's function, up to the switch back. */
    method SwapIn(f: Fiber)
      requires f.state != EXEC && Tidy(f.code, false) && QueueOk() && Settled() && f !in Fibers(queue)
      modifies this`queue, this`out, f
      ensures out == old(out) + Marks(old(f.code))
      ensures QueueOk() && OthersSettled(f)
      ensures Views(queue) == old(Views(queue)) + Issued(old(f.code), Continuation(old(f.code)))
      ensures forall g :: g in Fibers(queue) ==> g in old(Fibers(queue)) || g == null || g == f || fresh(g)
      ensures f in Fibers(queue) ==> f.state == EXEC
      ensures f.state == StateAfter(Leaving(old(f.code)))
      ensures !f.state.Dead() ==> f.code == Continuation(old(f.code)) && Tidy(f.code, false)
    {
      assert f.state != EXEC;
      f.state := EXEC;
      ghost var q0, code := queue, f.code;
      TurnShrinks(code, false, Continuation(code));
      var pc, added := RunSegment(f);
      Depart(f, pc);
      AddedOk(added, Requests(code), f);
      forall e | e in q0 ensures EntryOk(e) && e.fiber in old(Fibers(queue)) {
        assert old(EntryOk(e));
      }
      AddedViews(q0, added, code, f);
      ViewsKept(q0);
    }

    lemma AddedViews(q0: seq<Entry>, added: seq<Entry>, code: Prog, f: Fiber)
      requires Stands(added, Requests(code), f)
      requires None in Requests(code) ==> !f.state.Dead() && f.code == Continuation(code)
      ensures Views(q0 + added) == Views(q0) + Issued(code, Continuation(code))
    {
      ViewsConcat(q0, added);
      StandsViews(added, Requests(code), f, Continuation(code));
      FilledRequests(code, Continuation(code));
    }

    lemma AddedOk(added: seq<Entry>, ps: seq<Option<Prog>>, f: Fiber)
      requires Stands(added, ps, f) && (f.state.Dead() || Tidy(f.code, false))
      ensures forall e :: e in added ==> EntryOk(e) && (e.fiber == null || e.fiber == f || e.fiber.state == INIT)
    {
      forall e | e in added ensures EntryOk(e) && (e.fiber == null || e.fiber == f || e.fiber.state == INIT) {
        var i :| 0 <= i < |added| && e == added[i];
        assert StandsFor(added[i], ps[i], f);
      }
    }

    lemma {:induction false} StandsViews(es: seq<Entry>, ps: seq<Option<Prog>>, f: Fiber, self: Prog)
      requires Stands(es, ps, f) && (None in ps ==> !f.state.Dead() && f.code == self)
      ensures Views(es) == Filled(ps, self)
    {
      if es != [] {
        assert ps[0] in ps && StandsFor(es[0], ps[0], f);
        assert forall i :: 0 <= i < |es| - 1 ==> es[1..][i] == es[i + 1] && ps[1..][i] == ps[i + 1];
        StandsViews(es[1..], ps[1..], f, self);
      }
    }

    /** A READY fiber goes to the back of the queue. */
    method Requeue(f: Fiber)
      requires f.state == READY && Tidy(f.code, false) && QueueOk() && Settled() && f !in Fibers(queue)
      modifies this`queue
      ensures queue == old(queue) + [Entry(f, None, -1)] && QueueOk() && Settled()
      ensures Views(queue) == old(Views(queue)) + [f.code]
    {
      ghost var q, e := queue, Entry(f, None, -1);
      var _ := Schedule(Entry(f, None, -1));
      ViewsConcat(q, [e]);
      assert Views([e]) == View(e) + Views([]);
      assert forall g: Entry :: g in q ==> g.fiber in Fibers(q);
    }

    /** A fiber that yielded to hold is parked; it may have an entry in the queue. */
    method Park(f: Fiber)
      requires f.state == EXEC && Tidy(f.code, false) && QueueOk()
      requires OthersSettled(f)
      modifies f`state
      ensures f.state == HOLD && QueueOk() && Settled() && Views(queue) == old(Views(queue))
    {
      f.state := HOLD;
      ViewsKept(queue);
    }

    /** The fiber's round once it has been entered: decrement, then requeue, park or drop (scheduler.cpp:182-192). */
    method RunFiber(f: Fiber)
      requires f.state != EXEC && Tidy(f.code, false) && QueueOk() && Settled() && f !in Fibers(queue)
      modifies this`queue, this`out, this`active, f
      ensures out == old(out) + Marks(old(f.code)) && active == old(active) - 1
      ensures QueueOk() && Settled() && f.state != EXEC
      ensures Views(queue) == old(Views(queue)) + Appended(old(f.code))
      ensures forall g :: g in Fibers(queue) ==> g in old(Fibers(queue)) || g == null || g == f || fresh(g)
      ensures f.state.Dead() ==> f !in Fibers(queue)
    {
      ghost var code, views := f.code, Views(queue);
      SwapIn(f);
      active := active - 1;
      Associative(views, Issued(code, Continuation(code)), [Continuation(code)]);
      assert Issued(code, Continuation(code)) + [] == Issued(code, Continuation(code));
      if f.state == READY {
        Requeue(f);
      } else if !f.state.Dead() {
        Park(f);
      }
    }

    /** The callback branch (scheduler.cpp:193-211): `cb_fiber` is reused if the last callback ended. */
    method RunCallback(cbFiber: Fiber?, c: Prog) returns (kept: Fiber?)
      requires cbFiber != null ==> cbFiber.state == INIT && cbFiber !in Fibers(queue)
      requires Tidy(c, false) && QueueOk() && Settled()
      modifies this`queue, this`out, this`active, cbFiber
      ensures out == old(out) + Marks(c) && active == old(active) - 1
      ensures QueueOk() && Settled()
      ensures Views(queue) == old(Views(queue)) + Appended(c)
      ensures forall g :: g in Fibers(queue) ==> g in old(Fibers(queue)) || g == null || g == cbFiber || fresh(g)
      ensures kept != null ==> (kept == cbFiber || fresh(kept)) && kept.state == INIT && kept !in Fibers(queue)
    {
      var g;
      if cbFiber != null {
        g := cbFiber;
        g.Reset(Some(c));
      } else {
        g := new Fiber(c);
      }
      RunFiber(g);
      if g.state.Dead() {
        assert g.state.Resettable();
        g.Reset(None);
        kept := g;
      } else {
        kept := null;
      }
    }

    lemma ViewsTidy()
      requires QueueOk()
      ensures AllTidy(Views(queue))
    {
      EntriesTidy(queue);
    }

    lemma {:induction false} EntriesTidy(q: seq<Entry>)
      requires forall e :: e in q ==> EntryOk(e)
      ensures AllTidy(Views(q))
    {
      if q != [] {
        assert q[0] in q;
        EntriesTidy(q[1..]);
      }
    }

    /** The entry `e` in front of the rest `q` of the queue, between rounds. */
    ghost predicate Front(e: Entry, q: seq<Entry>)
      reads e.fiber, Fibers(q)
    {
      && EntryOk(e) && Eligible(e) && Distinct(q)
      && (e.fiber != null ==> e.fiber !in Fibers(q) && e.fiber.state != EXEC)
      && forall g :: g in q ==> EntryOk(g) && (g.fiber != null ==> g.fiber.state != EXEC)
    }

    /** On one worker every entry is eligible between rounds, so the scan takes the front. */
    method TakeFront() returns (found: bool, ft: Entry)
      requires QueueOk() && Settled()
      modifies this`queue, this`active
      ensures found == (old(queue) != []) && active == old(active) + (if found then 1 else 0)
      ensures found ==> old(queue) == [ft] + queue && Front(ft, queue) && old(Views(queue)) == View(ft) + Views(queue)
      ensures !found ==> queue == []
      ensures QueueOk() && Settled()
    {
      ghost var q := queue;
      if queue != [] {
        FirstIsEligible();
      }
      found, ft := TakeFirst();
      if found {
        assert queue == q[..0] + q[0 + 1..] == q[1..] && ft == q[0];
        FrontTaken(ft);
      }
    }

    lemma FirstIsEligible()
      requires QueueOk() && Settled() && queue != []
      ensures Eligible(queue[0])
    {
      assert queue[0] in queue;
    }

    /** What is known once the front of the queue has been erased. */
    twostate lemma FrontTaken(e: Entry)
      requires old(queue) == [e] + queue && old(QueueOk() && Settled())
      requires forall g :: g in old(queue) && g.fiber != null ==> unchanged(g.fiber)
      ensures Front(e, queue) && old(Views(queue)) == View(e) + Views(queue)
      ensures QueueOk() && Settled()
    {
      assert e in old(queue) && forall g :: g in queue ==> g in old(queue);
      FrontOff(e, queue);
      ViewsKept([e] + queue);
    }

    /** The idle branch; the idle fiber's function polls stopping() and ends or yields (scheduler.cpp:217-248). */
    method IdleRound(idle: State) returns (idle': State)
      requires idle != EXEC && !idle.Dead()
      modifies this`idleCount
      ensures idleCount == old(idleCount) && idle' == (if Stopping() then TERM else HOLD)
    {
      idleCount := idleCount + 1;
      assert idle != EXEC;
      idle' := EXEC;
      if Stopping() {
        idle' := TERM;
      }
      idleCount := idleCount - 1;
      if !idle'.Dead() {
        idle' := HOLD;
      }
    }

    ghost predicate Ready()
      reads this, Fibers(queue)
    {
      autoStop && stopping && active == 0 && idleCount == 0 && QueueOk() && Settled() && AllTidy(Views(queue))
    }

    /** The loop's own fiber for callbacks waits in INIT and is not queued. */
    ghost predicate Spare(g: Fiber?)
      reads this`queue, g
    {
      g != null ==> g.state == INIT && g !in Fibers(queue)
    }

    /** A round with a task in `ft`: the first two branches of the loop body (scheduler.cpp:181-211). */
    method Turn(ft: Entry, cbFiber: Fiber?) returns (kept: Fiber?)
      requires autoStop && stopping && active == 1 && idleCount == 0 && QueueOk() && Settled() && Spare(cbFiber)
      requires Front(ft, queue) && AllTidy(View(ft) + Views(queue)) && View(ft) != []
      requires ft.fiber != null ==> ft.fiber != cbFiber
      modifies this`queue, this`out, this`active, ft.fiber, cbFiber
      ensures Ready() && Spare(kept) && (kept == null || kept == cbFiber || fresh(kept))
      ensures out + RoundRobin(Views(queue)) == old(out) + RoundRobin(old(View(ft) + Views(queue)))
      ensures Work(Views(queue)) < old(Work(View(ft) + Views(queue)))
      ensures forall g :: g in Fibers(queue) ==>
                g in old(Fibers(queue)) || g == null || g == ft.fiber || g == cbFiber || fresh(g)
    {
      ghost var before, was := View(ft) + Views(queue), out;
      if ft.fiber != null {
        RunFiber(ft.fiber);
        kept := cbFiber;
      } else {
        kept := RunCallback(cbFiber, ft.cb.value);
      }
      TurnTaken(before, Views(queue), was, out);
    }

    /** A round whose scan has erased `ft`; a fiber that has ended is only dropped and discounted. */
    method Taken(ft: Entry, cbFiber: Fiber?) returns (kept: Fiber?)
      requires autoStop && stopping && active == 1 && idleCount == 0 && QueueOk() && Settled() && Spare(cbFiber)
      requires Front(ft, queue) && AllTidy(View(ft) + Views(queue)) && (ft.fiber != null ==> ft.fiber != cbFiber)
      modifies this`queue, this`out, this`active, ft.fiber, cbFiber
      ensures Ready() && Spare(kept) && (kept == null || kept == cbFiber || fresh(kept))
      ensures out + RoundRobin(Views(queue)) == old(out) + RoundRobin(old(View(ft) + Views(queue)))
      ensures Work(Views(queue)) < old(Work(View(ft) + Views(queue)))
           || (Views(queue) == old(View(ft) + Views(queue)) && queue == old(queue))
      ensures forall g :: g in Fibers(queue) ==>
                g in old(Fibers(queue)) || g == null || g == ft.fiber || g == cbFiber || fresh(g)
    {
      if (ft.fiber != null && !ft.fiber.state.Dead()) || ft.cb.Some? {
        kept := Turn(ft, cbFiber);
      } else {
        kept := cbFiber;
        assert View(ft) + Views(queue) == Views(queue);
        active := active - 1;
      }
    }

    /** One pass through the body of the loop in run(); `done` is its break. */
    method Round(cbFiber: Fiber?, idle: State) returns (kept: Fiber?, idle': State, done: bool)
      requires Ready() && Spare(cbFiber) && (idle == INIT || (idle == TERM && queue == []))
      modifies this`queue, this`out, this`active, this`idleCount, Fibers(queue), cbFiber
      ensures Ready() && Spare(kept) && (idle' == INIT || (idle' == TERM && queue == []))
      ensures kept == null || kept == cbFiber || fresh(kept)
      ensures out + RoundRobin(Views(queue)) == old(out) + RoundRobin(old(Views(queue)))
      ensures forall g :: g in Fibers(queue) ==> g in old(Fibers(queue)) || g == null || g == cbFiber || fresh(g)
      ensures done ==> queue == []
      ensures !done ==>
                || Work(Views(queue)) < old(Work(Views(queue)))
                || (Views(queue) == old(Views(queue))
                    && (|queue| < old(|queue|) || (queue == old(queue) && idle == INIT && idle' == TERM)))
    {
      kept, idle', done := cbFiber, idle, false;
      var found, ft := TakeFront();
      if found {
        FibersCons(ft, queue);
        kept := Taken(ft, cbFiber);
      } else if idle == TERM {
        done := true;
      } else {
        idle' := IdleRound(idle);
      }
    }

    /** run() on the root fiber after stop() has set its flags: round robin until the queue is exhausted. */
    method Run()
      requires Ready()
      modifies this`queue, this`out, this`active, this`idleCount, Fibers(queue)
      ensures queue == [] && active == 0 && idleCount == 0
      ensures out == old(out) + RoundRobin(old(Views(queue)))
    {
      ghost var owned := Fibers(queue);
      var cbFiber: Fiber?, idle, done := null, INIT, false;
      while !done
        invariant Ready() && Spare(cbFiber) && (idle == INIT || (idle == TERM && queue == []))
        invariant out + RoundRobin(Views(queue)) == old(out) + RoundRobin(old(Views(queue)))
        invariant forall g :: g in Fibers(queue) ==> g == null || g in owned || fresh(g)
        invariant cbFiber != null ==> fresh(cbFiber)
        invariant done ==> queue == []
        decreases !done, Work(Views(queue)), |queue|, if idle == INIT then 1 else 0
      {
        cbFiber, idle, done := Round(cbFiber, idle);
      }
    }

    /**
     `call` of the root fiber. It can be called once: when it has ended, its finished context is resumed behind the
     switch back, where an assertion fails (src/fiber/fiber.cpp:246-249). That is the result false.
     */
    method CallRoot() returns (ok: bool)
      requires Ready() && (rootState == INIT || rootState == TERM)
      modifies this`queue, this`out, this`active, this`idleCount, this`rootState, Fibers(queue)
      ensures ok == old(rootState == INIT) && active == 0 && idleCount == 0
      ensures ok ==> queue == [] && out == old(out) + RoundRobin(old(Views(queue))) && rootState == TERM
      ensures !ok ==> queue == old(queue) && out == old(out) && rootState == EXEC
    {
      ok := rootState == INIT;
      rootState := EXEC;
      if ok {
        Run();
        rootState := TERM;
      }
    }

    /** stop() on the thread that made the scheduler; false if work has come in after the root fiber has ended. */
    method Stop() returns (ok: bool)
      requires rootState == INIT || rootState == TERM
      requires active == 0 && idleCount == 0 && QueueOk() && Settled()
      modifies this, Fibers(queue)
      ensures ok == old(rootState == INIT || queue == [])
      ensures autoStop && stopping && active == 0 && idleCount == 0
      ensures old(AllTidy(Views(queue)))
      ensures ok ==> queue == [] && out == old(out) + RoundRobin(old(Views(queue)))
      ensures ok ==> rootState == if old(queue) == [] then old(rootState) else TERM
      ensures !ok ==> queue == old(queue) && out == old(out) && rootState == EXEC
    {
      ViewsTidy();
      autoStop := true;
      if rootState == TERM || rootState == INIT {
        stopping := true;
        if Stopping() {
          return true;
        }
      }
      stopping := true;
      ok := true;
      if !Stopping() {
        ok := CallRoot();
      }
    }
  }

  lemma FibersCons(e: Entry, q: seq<Entry>)
    ensures Fibers([e] + q) == {e.fiber} + Fibers(q)
  {
    assert e in [e] + q && forall g :: g in [e] + q <==> g == e || g in q;
  }

  lemma FrontOff(e: Entry, q: seq<Entry>)
    requires Distinct([e] + q)
    ensures Distinct(q) && (e.fiber != null ==> e.fiber !in Fibers(q))
    ensures Views([e] + q) == View(e) + Views(q)
    ensures (forall g :: g in q ==> g in [e] + q) && Fibers(q) <= Fibers([e] + q) && e.fiber in Fibers([e] + q)
  {
    var p := [e] + q;
    assert p[1..] == q && p[0] == e;
    forall i, j | 0 <= i < j < |q| && q[i].fiber != null ensures q[i].fiber != q[j].fiber {
      assert p[i + 1] == q[i] && p[j + 1] == q[j];
    }
    forall i | 0 <= i < |q| && e.fiber != null ensures q[i].fiber != e.fiber {
      assert p[i + 1] == q[i];
    }
  }

  /** One turn of the front program, seen from the expected output. */
  lemma TurnTaken(before: seq<Prog>, after: seq<Prog>, out: seq<nat>, out': seq<nat>)
    requires before != [] && AllTidy(before)
    requires after == before[1..] + Appended(before[0]) && out' == out + Marks(before[0])
    ensures AllTidy(after) && Work(after) < Work(before)
    ensures out' + RoundRobin(after) == out + RoundRobin(before)
  {
    assert after == NextQueue(before);
    Associative(out, Marks(before[0]), RoundRobin(after));
  }

  /** The state in which a fiber is when its worker looks at it again. */
  function StateAfter(pc: Prog): State {
    match pc
    case YieldToReady(_) => READY
    case YieldToHold(_) => EXEC
    case Return => TERM
    case _ => EXCEPT
  }

  /** What the segment queues; `None` is the fiber itself. */
  function Requests(p: Prog): seq<Option<Prog>> {
    match p
    case Mark(_, k) => Requests(k)
    case SpawnCallback(c, k) => [Some(c)] + Requests(k)
    case SpawnFiber(c, k) => [Some(c)] + Requests(k)
    case QueueSelf(k) => [None] + Requests(k)
    case _ => []
  }

  /** The queued programs, with `self` in the places of the fiber itself. */
  function Filled(ps: seq<Option<Prog>>, self: Prog): seq<Prog> {
    if ps == [] then [] else [if ps[0].Some? then ps[0].value else self] + Filled(ps[1..], self)
  }

  lemma {:induction false} FilledRequests(p: Prog, self: Prog)
    ensures Filled(Requests(p), self) == Issued(p, self)
  {
    if !p.Leaves() {
      FilledRequests(p.rest, self);
      assert !p.Mark? ==> Requests(p)[1..] == Requests(p.rest);
    }
  }

  function NonNull(es: seq<Entry>): seq<Entry> {
    if es == [] then []
    else (if es[0].fiber != null || es[0].cb.Some? then [es[0]] else []) + NonNull(es[1..])
  }

  lemma EntriesAppend(jobs: seq<Job>, i: nat)
    requires i < |jobs|
    ensures NonNull(Entries(jobs[..i + 1]))
         == NonNull(Entries(jobs[..i]))
          + if jobs[i].fiber != null || jobs[i].cb.Some? then [Entry(jobs[i].fiber, jobs[i].cb, -1)] else []
  {
    assert Entries(jobs[..i + 1]) == Entries(jobs[..i]) + [Entry(jobs[i].fiber, jobs[i].cb, -1)];
    NonNullAppend(Entries(jobs[..i]), Entry(jobs[i].fiber, jobs[i].cb, -1));
  }

  lemma {:induction false} NonNullAppend(es: seq<Entry>, e: Entry)
    ensures NonNull(es + [e]) == NonNull(es) + if e.fiber != null || e.cb.Some? then [e] else []
  {
    if es != [] {
      assert (es + [e])[1..] == es[1..] + [e];
      NonNullAppend(es[1..], e);
    }
  }
}
