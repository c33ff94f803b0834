/**
 Finite task programs and the pure FIFO round robin that the one-worker scheduler must follow.

 A program is what the function of a fiber does until it ends. A segment is the part up to the next switch away.
 */
module TaskPrograms {
  import opened Bags

  datatype Prog =
    | Mark(out: nat, rest: Prog)              // something observable
    | SpawnCallback(child: Prog, rest: Prog)  // schedule(function)
    | SpawnFiber(child: Prog, rest: Prog)     // schedule(new Fiber(function))
    | QueueSelf(rest: Prog)                   // schedule(Fiber::GetThis())
    | YieldToReady(rest: Prog)
    | YieldToHold(rest: Prog)
    | Return
    | Throw
  {
    /** The instruction leaves the fiber. */
    predicate Leaves() { YieldToReady? || YieldToHold? || Return? || Throw? }
  }

  /** A program that has queued itself yields to hold next, and does not queue itself twice. */
  predicate Tidy(p: Prog, queued: bool) {
    match p
    case Mark(_, k) => Tidy(k, queued)
    case SpawnCallback(c, k) => Tidy(c, false) && Tidy(k, queued)
    case SpawnFiber(c, k) => Tidy(c, false) && Tidy(k, queued)
    case QueueSelf(k) => !queued && Tidy(k, true)
    case YieldToReady(k) => !queued && Tidy(k, false)
    case YieldToHold(k) => Tidy(k, false)
    case Return => !queued
    case Throw => !queued
  }

  /** The instruction with which the current segment ends. */
  function Leaving(p: Prog): (r: Prog)
    ensures r.Leaves()
  {
    if p.Leaves() then p else Leaving(p.rest)
  }

  /** What is left to do after the current segment, if it ends in a yield. */
  function Continuation(p: Prog): Prog {
    var q := Leaving(p);
    if q.YieldToReady? || q.YieldToHold? then q.rest else q
  }

  /** The observable outputs of the current segment. */
  function Marks(p: Prog): seq<nat> {
    if p.Leaves() then [] else (if p.Mark? then [p.out] else []) + Marks(p.rest)
  }

  /** The programs that the segment queues, in order; `self` stands for its own continuation. */
  function Issued(p: Prog, self: Prog): seq<Prog> {
    match p
    case Mark(_, k) => Issued(k, self)
    case SpawnCallback(c, k) => [c] + Issued(k, self)
    case SpawnFiber(c, k) => [c] + Issued(k, self)
    case QueueSelf(k) => [self] + Issued(k, self)
    case _ => []
  }

  /** Everything that one turn appends to the queue: what the segment queued, then itself if it is READY. */
  function Appended(p: Prog): seq<Prog> {
    Issued(p, Continuation(p)) + if Leaving(p).YieldToReady? then [Continuation(p)] else []
  }

  function Size(p: Prog): nat {
    match p
    case Mark(_, k) => 1 + Size(k)
    case SpawnCallback(c, k) => 1 + Size(c) + Size(k)
    case SpawnFiber(c, k) => 1 + Size(c) + Size(k)
    case QueueSelf(k) => 1 + Size(k)
    case YieldToReady(k) => 1 + Size(k)
    case YieldToHold(k) => 1 + Size(k)
    case _ => 1
  }

  function Work(q: seq<Prog>): nat {
    if q == [] then 0 else Size(q[0]) + Work(q[1..])
  }

  predicate AllTidy(q: seq<Prog>) { forall i :: 0 <= i < |q| ==> Tidy(q[i], false) }

  lemma {:induction false} WorkConcat(a: seq<Prog>, b: seq<Prog>)
    ensures Work(a + b) == Work(a) + Work(b)
  {
    if a == [] {
      assert a + b == b;
    } else {
      assert (a + b)[1..] == a[1..] + b;
      WorkConcat(a[1..], b);
    }
  }

  /** A turn uses up at least one instruction; a program that has queued itself does not count itself again. */
  lemma {:induction false} TurnShrinks(p: Prog, queued: bool, self: Prog)
    requires Tidy(p, queued) && self == Continuation(p)
    ensures AllTidy(Issued(p, self)) && (Leaving(p).YieldToReady? || Leaving(p).YieldToHold? ==> Tidy(self, false))
    ensures queued ==> Leaving(p).YieldToHold?
    ensures Work(Issued(p, self)) + (if Leaving(p).YieldToReady? || queued then Size(self) else 0) < Size(p)
  {
    match p
    case Mark(_, k) => TurnShrinks(k, queued, self);
    case SpawnCallback(c, k) =>
      TurnShrinks(k, queued, self);
      assert Issued(p, self)[1..] == Issued(k, self);
    case SpawnFiber(c, k) =>
      TurnShrinks(k, queued, self);
      assert Issued(p, self)[1..] == Issued(k, self);
    case QueueSelf(k) =>
      TurnShrinks(k, true, self);
      assert Issued(p, self)[1..] == Issued(k, self);
    case _ =>
  }

  lemma AppendedShrinks(p: Prog)
    requires Tidy(p, false)
    ensures AllTidy(Appended(p)) && Work(Appended(p)) < Size(p)
  {
    TurnShrinks(p, false, Continuation(p));
    WorkConcat(Issued(p, Continuation(p)), if Leaving(p).YieldToReady? then [Continuation(p)] else []);
  }

  /** The queue after the turn of its first program. */
  function NextQueue(q: seq<Prog>): (r: seq<Prog>)
    requires q != [] && AllTidy(q)
    ensures AllTidy(r) && Work(r) < Work(q)
  {
    AppendedShrinks(q[0]);
    WorkConcat(q[1..], Appended(q[0]));
    q[1..] + Appended(q[0])
  }

  /** FIFO round robin: the outputs of running the queue to exhaustion. */
  function RoundRobin(q: seq<Prog>): seq<nat>
    requires AllTidy(q)
    decreases Work(q)
  {
    if q == [] then [] else Marks(q[0]) + RoundRobin(NextQueue(q))
  }

  // ---- What round robin means, without reference to turns -------------------------------------------

  /** The program never parks itself: it queues itself before every yield to hold. */
  predicate NeverParks(p: Prog, queued: bool) {
    match p
    case Mark(_, k) => NeverParks(k, queued)
    case SpawnCallback(c, k) => NeverParks(c, false) && NeverParks(k, queued)
    case SpawnFiber(c, k) => NeverParks(c, false) && NeverParks(k, queued)
    case QueueSelf(k) => NeverParks(k, true)
    case YieldToReady(k) => NeverParks(k, false)
    case YieldToHold(k) => queued && NeverParks(k, false)
    case _ => true
  }

  /** How often the output `l` is written anywhere in the program text. */
  function Written(l: nat, p: Prog): nat {
    match p
    case Mark(m, k) => One(m == l) + Written(l, k)
    case SpawnCallback(c, k) => Written(l, c) + Written(l, k)
    case SpawnFiber(c, k) => Written(l, c) + Written(l, k)
    case QueueSelf(k) => Written(l, k)
    case YieldToReady(k) => Written(l, k)
    case YieldToHold(k) => Written(l, k)
    case _ => 0
  }

  function WrittenIn(l: nat, q: seq<Prog>): nat {
    if q == [] then 0 else Written(l, q[0]) + WrittenIn(l, q[1..])
  }

  /** How often `l` occurs in the outputs `s`. */
  function Times(l: nat, s: seq<nat>): nat {
    if s == [] then 0 else One(s[0] == l) + Times(l, s[1..])
  }

  lemma {:induction false} TimesConcat(l: nat, a: seq<nat>, b: seq<nat>)
    ensures Times(l, a + b) == Times(l, a) + Times(l, b)
  {
    if a == [] {
      assert a + b == b;
    } else {
      assert (a + b)[1..] == a[1..] + b;
      TimesConcat(l, a[1..], b);
    }
  }

  lemma {:induction false} WrittenConcat(l: nat, a: seq<Prog>, b: seq<Prog>)
    ensures WrittenIn(l, a + b) == WrittenIn(l, a) + WrittenIn(l, b)
  {
    if a == [] {
      assert a + b == b;
    } else {
      assert (a + b)[1..] == a[1..] + b;
      WrittenConcat(l, a[1..], b);
    }
  }

  predicate NoneParks(q: seq<Prog>) { forall i :: 0 <= i < |q| ==> NeverParks(q[i], false) }

  lemma {:induction false} TurnWrites(l: nat, p: Prog, queued: bool, self: Prog)
    requires Tidy(p, queued) && NeverParks(p, queued) && self == Continuation(p)
    ensures NoneParks(Issued(p, self))
    ensures Leaving(p).YieldToReady? || Leaving(p).YieldToHold? ==> NeverParks(self, false)
    ensures Times(l, Marks(p)) + WrittenIn(l, Issued(p, self))
            + (if Leaving(p).YieldToReady? || queued then Written(l, self) else 0) == Written(l, p)
  {
    match p
    case Mark(m, k) =>
      TurnWrites(l, k, queued, self);
      TimesConcat(l, [m], Marks(k));
    case SpawnCallback(c, k) =>
      TurnWrites(l, k, queued, self);
      SpawnWrites(l, c, k, self);
      assert Marks(p) == Marks(k);
    case SpawnFiber(c, k) =>
      TurnWrites(l, k, queued, self);
      SpawnWrites(l, c, k, self);
      assert Marks(p) == Marks(k);
    case QueueSelf(k) =>
      TurnWrites(l, k, true, self);
      TurnShrinks(k, true, self);
      SpawnWrites(l, self, k, self);
      assert Marks(p) == Marks(k);
    case _ =>
  }

  lemma SpawnWrites(l: nat, c: Prog, k: Prog, self: Prog)
    ensures WrittenIn(l, [c] + Issued(k, self)) == Written(l, c) + WrittenIn(l, Issued(k, self))
    ensures NeverParks(c, false) && NoneParks(Issued(k, self)) ==> NoneParks([c] + Issued(k, self))
  {
    assert ([c] + Issued(k, self))[1..] == Issued(k, self);
  }

  /** If no program parks itself for good, every output in every program happens exactly once. */
  lemma {:induction false} EveryOutputOnce(l: nat, q: seq<Prog>)
    requires AllTidy(q) && NoneParks(q)
    ensures Times(l, RoundRobin(q)) == WrittenIn(l, q)
    decreases Work(q)
  {
    if q != [] {
      var p := q[0];
      var last := if Leaving(p).YieldToReady? then [Continuation(p)] else [];
      TurnWrites(l, p, false, Continuation(p));
      WrittenConcat(l, Issued(p, Continuation(p)), last);
      WrittenConcat(l, q[1..], Appended(p));
      TimesConcat(l, Marks(p), RoundRobin(NextQueue(q)));
      assert NoneParks(Appended(p));
      EveryOutputOnce(l, NextQueue(q));
    }
  }
}
