/**
 The order of the queue: callbacks for any worker are taken from it in the order in which they were pushed, however
 many workers scan it and whatever else is queued between them (src/scheduler/scheduler.cpp:152-175).
 */
module WorkerOrder {
  import opened Options
  import opened Bags
  import opened Sequences
  import opened WorkerInvariants
  import opened WorkerSteps
  import opened WorkerTheorems

  /** The callback of an entry that every worker may take at any time. */
  function Plain(e: Entry): seq<Id> {
    match e
    case Entry(CallbackTask(c), t) => if t == -1 then [c] else []
    case Entry(FiberTask(_), _) => []
  }

  function PlainOf(q: seq<Entry>): seq<Id> {
    if q == [] then [] else PlainOf(q[..|q| - 1]) + Plain(q[|q| - 1])
  }

  /** The callbacks for any worker that the steps push, in order. */
  function Pushed(acts: seq<Action>): seq<Id> {
    if acts == [] then [] else Pushed(acts[..|acts| - 1]) + PushedBy(acts[|acts| - 1])
  }

  function PushedBy(a: Action): seq<Id> {
    match a
    case User(Push(_, Entry(CallbackTask(c), -1))) => [c]
    case _ => []
  }

  /** The callbacks for any worker that are taken from the queue, in order. */
  function Picked(tr: seq<System>, acts: seq<Action>, k: nat): seq<Id>
    requires k <= |acts| < |tr|
  {
    if k == 0 then [] else Picked(tr, acts, k - 1) + PickedBy(tr[k - 1], acts[k - 1])
  }

  function PickedBy(s: System, a: Action): seq<Id> {
    match a
    case Scan(w, Pick) => if Scans(s, w) && s.workers[w].pc.i < |s.queue| then Plain(s.queue[s.workers[w].pc.i]) else []
    case _ => []
  }

  /** A scan has passed over no callback that it could take. */
  ghost predicate PassedNone(s: System) {
    forall w: WorkerId, k :: Scans(s, w) && 0 <= k < |s.queue| && k < s.workers[w].pc.i ==> Plain(s.queue[k]) == []
  }

  lemma {:induction false} PlainConcat(a: seq<Entry>, b: seq<Entry>)
    ensures PlainOf(a + b) == PlainOf(a) + PlainOf(b)
  {
    if b == [] {
      assert a + b == a;
    } else {
      var front := b[..|b| - 1];
      PlainConcat(a, front);
      assert (a + b)[..|a + b| - 1] == a + front;
      Associative(PlainOf(a), PlainOf(front), Plain(b[|b| - 1]));
    }
  }

  lemma PlainOne(e: Entry)
    ensures PlainOf([e]) == Plain(e)
  {
    assert [e][..0] == [];
  }

  lemma {:induction false} PlainNone(q: seq<Entry>)
    requires forall k :: 0 <= k < |q| ==> Plain(q[k]) == []
    ensures PlainOf(q) == []
  {
    if q != [] {
      PlainNone(q[..|q| - 1]);
    }
  }

  lemma PlainBetween(a: seq<Entry>, x: Entry, b: seq<Entry>)
    requires PlainOf(a) == []
    ensures PlainOf(a + [x] + b) == Plain(x) + PlainOf(a + b)
  {
    PlainConcat(a + [x], b);
    PlainConcat(a, [x]);
    PlainOne(x);
    PlainConcat(a, b);
  }

  /** Taking the entry at `i`, when nothing plain is before it, takes the first of the plain ones. */
  lemma PlainTaken(q: seq<Entry>, i: nat)
    requires i < |q| && forall k :: 0 <= k < i ==> Plain(q[k]) == []
    ensures Plain(q[i]) + PlainOf(q[..i] + q[i + 1..]) == PlainOf(q)
  {
    PlainNone(q[..i]);
    PlainBetween(q[..i], q[i], q[i + 1..]);
    Parts(q, i);
  }

  lemma Parts<T>(q: seq<T>, i: nat)
    requires i < |q|
    ensures q == q[..i] + [q[i]] + q[i + 1..]
  {
  }

  lemma PlainAppended(q: seq<Entry>, e: Entry)
    ensures PlainOf(q + [e]) == PlainOf(q) + Plain(e)
  {
    PlainConcat(q, [e]);
    PlainOne(e);
  }

  /** What was taken and what still waits, together in order, grow by what the step pushes. */
  ghost predicate InOrder(s: System, a: Action, s': System) {
    PickedBy(s, a) + PlainOf(s'.queue) == PlainOf(s.queue) + PushedBy(a)
  }

  lemma OrderUser(s: System, u: UserOp)
    requires Shape(s) && CanUser(s, u) && PassedNone(s)
    ensures InOrder(s, User(u), ApplyUser(s, u)) && PassedNone(ApplyUser(s, u))
  {
    match u
    case Push(caller, e) =>
      PlainAppended(s.queue, e);
      assert e == Entry(e.task, e.thread);
    case SwitchTo(w, t) => PlainAppended(s.queue, Entry(FiberTask(s.workers[w].pc.f), t));
    case _ =>
  }

  lemma OnlyOneScans(s: System, w: WorkerId)
    requires Shape(s) && w < |s.workers|
    requires s.workers[w].pc.Scanning? || s.lock == None
    ensures forall v: WorkerId :: v != w ==> !Scans(s, v)
  {
    forall v: WorkerId | v < |s.workers| && v != w ensures !Scans(s, v) {
      assert WorkerFits(s, v, s.workers[v]) && WorkerFits(s, w, s.workers[w]);
    }
  }

  /** A step that leaves the queue alone and starts no scan in the middle. */
  lemma OrderQuiet(s: System, a: Action, s': System)
    requires PassedNone(s) && s'.queue == s.queue && PickedBy(s, a) == [] && PushedBy(a) == []
    requires forall w: WorkerId :: Scans(s', w) ==> Scans(s, w) && s'.workers[w].pc == s.workers[w].pc
    ensures InOrder(s, a, s') && PassedNone(s')
  {
  }

  lemma OrderPick(s: System, w: WorkerId)
    requires Shape(s) && CanScan(s, w, Pick) && PassedNone(s)
    ensures InOrder(s, Scan(w, Pick), ApplyScan(s, w, Pick)) && PassedNone(ApplyScan(s, w, Pick))
  {
    PlainTaken(s.queue, s.workers[w].pc.i);
    OnlyOneScans(s, w);
    NobodyScans(ApplyScan(s, w, Pick));
  }

  lemma NobodyScans(s: System)
    requires forall w: WorkerId :: !Scans(s, w)
    ensures PassedNone(s)
  {
  }

  /** The scan goes on past an entry that the worker may not take now. */
  lemma OrderSkip(s: System, w: WorkerId)
    requires CanScan(s, w, Skip) && PassedNone(s)
    ensures InOrder(s, Scan(w, Skip), ApplyScan(s, w, Skip)) && PassedNone(ApplyScan(s, w, Skip))
  {
    var s' := ApplyScan(s, w, Skip);
    assert Plain(s.queue[s.workers[w].pc.i]) == [];
    forall v: WorkerId, k | Scans(s', v) && 0 <= k < |s'.queue| && k < s'.workers[v].pc.i
      ensures Plain(s'.queue[k]) == []
    {
      assert Scans(s, v);
    }
  }

  lemma OrderScan(s: System, w: WorkerId, op: ScanOp)
    requires Shape(s) && CanScan(s, w, op) && PassedNone(s)
    ensures InOrder(s, Scan(w, op), ApplyScan(s, w, op)) && PassedNone(ApplyScan(s, w, op))
  {
    match op
    case Pick => OrderPick(s, w);
    case Skip => OrderSkip(s, w);
    case Lock =>
    case ScanEnd => OrderQuiet(s, Scan(w, op), ApplyScan(s, w, op));
  }

  lemma OrderRequeue(s: System, w: WorkerId)
    requires Shape(s) && CanSettle(s, w, Requeue) && PassedNone(s)
    ensures InOrder(s, Settle(w, Requeue), ApplySettle(s, w, Requeue)) && PassedNone(ApplySettle(s, w, Requeue))
  {
    PlainAppended(s.queue, Entry(FiberTask(s.workers[w].pc.f), -1));
    OnlyOneScans(s, w);
    NobodyScans(ApplySettle(s, w, Requeue));
  }

  lemma SettleIsQuiet(s: System, w: WorkerId, op: SettleOp)
    requires CanSettle(s, w, op) && op != Requeue
    ensures ApplySettle(s, w, op).queue == s.queue && !Scans(ApplySettle(s, w, op), w)
    ensures forall v: WorkerId :: v < |s.workers| && v != w ==> ApplySettle(s, w, op).workers[v] == s.workers[v]
    ensures |ApplySettle(s, w, op).workers| == |s.workers|
  {
  }

  lemma OrderSettle(s: System, w: WorkerId, op: SettleOp)
    requires Shape(s) && CanSettle(s, w, op) && PassedNone(s)
    ensures InOrder(s, Settle(w, op), ApplySettle(s, w, op)) && PassedNone(ApplySettle(s, w, op))
  {
    if op == Requeue {
      OrderRequeue(s, w);
    } else {
      SettleIsQuiet(s, w, op);
      OrderQuiet(s, Settle(w, op), ApplySettle(s, w, op));
    }
  }

  lemma RunIsQuiet(s: System, w: WorkerId, op: RunOp)
    requires CanRun(s, w, op)
    ensures ApplyRun(s, w, op).queue == s.queue && !Scans(ApplyRun(s, w, op), w)
    ensures forall v: WorkerId :: v < |s.workers| && v != w ==> ApplyRun(s, w, op).workers[v] == s.workers[v]
    ensures |ApplyRun(s, w, op).workers| == |s.workers|
  {
  }

  lemma OrderRun(s: System, w: WorkerId, op: RunOp)
    requires CanRun(s, w, op) && PassedNone(s)
    ensures InOrder(s, Run(w, op), ApplyRun(s, w, op)) && PassedNone(ApplyRun(s, w, op))
  {
    RunIsQuiet(s, w, op);
    OrderQuiet(s, Run(w, op), ApplyRun(s, w, op));
  }

  lemma OrderIdle(s: System, w: WorkerId, op: IdleOp)
    requires CanIdle(s, w, op) && PassedNone(s)
    ensures InOrder(s, Idle(w, op), ApplyIdle(s, w, op)) && PassedNone(ApplyIdle(s, w, op))
  {
    OrderQuiet(s, Idle(w, op), ApplyIdle(s, w, op));
  }

  lemma OrderMain(s: System, m: MainOp)
    requires CanMain(s, m) && PassedNone(s)
    ensures InOrder(s, Main(m), ApplyMain(s, m)) && PassedNone(ApplyMain(s, m))
  {
    OrderQuiet(s, Main(m), ApplyMain(s, m));
  }

  lemma OrderStep(s: System, a: Action)
    requires Shape(s) && CanStep(s, a) && PassedNone(s)
    ensures InOrder(s, a, Apply(s, a)) && PassedNone(Apply(s, a))
  {
    match a
    case Main(m) => OrderMain(s, m);
    case User(u) => OrderUser(s, u);
    case Scan(w, op) => OrderScan(s, w, op);
    case Run(w, op) => OrderRun(s, w, op);
    case Settle(w, op) => OrderSettle(s, w, op);
    case Idle(w, op) => OrderIdle(s, w, op);
  }

  lemma OrderNext(tr: seq<System>, acts: seq<Action>, k: nat)
    requires IsRun(tr, acts) && k < |acts| && PassedNone(tr[k])
    ensures InOrder(tr[k], acts[k], tr[k + 1]) && PassedNone(tr[k + 1])
  {
    OnRun(tr, acts, k);
    OrderStep(tr[k], acts[k]);
  }

  lemma {:induction false} OrderRuns(tr: seq<System>, acts: seq<Action>, k: nat)
    requires IsRun(tr, acts) && k <= |acts|
    ensures PassedNone(tr[k]) && Picked(tr, acts, k) + PlainOf(tr[k].queue) == Pushed(acts[..k])
  {
    if k > 0 {
      OrderRuns(tr, acts, k - 1);
      OrderNext(tr, acts, k - 1);
      assert acts[..k][..k - 1] == acts[..k - 1];
      Associative(Picked(tr, acts, k - 1), PickedBy(tr[k - 1], acts[k - 1]), PlainOf(tr[k].queue));
      Associative(Picked(tr, acts, k - 1), PlainOf(tr[k - 1].queue), PushedBy(acts[k - 1]));
    }
  }

  /**
   First in, first out: at any time the callbacks for any worker that have been taken, followed by those that are
   still queued, are those that were pushed, in the order of the pushes.
   */
  lemma FirstInFirstOut(tr: seq<System>, acts: seq<Action>, k: nat)
    requires IsRun(tr, acts) && k <= |acts|
    ensures Picked(tr, acts, k) + PlainOf(tr[k].queue) == Pushed(acts[..k])
  {
    OrderRuns(tr, acts, k);
  }
}
