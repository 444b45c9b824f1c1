/**
 What every iteration of the executor's loop keeps, and what it means for the
 nodes a segment executes.
 */
module Walks {
  import opened Wrappers
  import opened Graphs
  import opened NodeExecution
  import opened Executor

  function Ids(trace: seq<Entry>): set<string> {
    set e | e in trace :: e.id
  }

  /** Node `a` was executed and chose `b` among its successors. */
  ghost predicate Chose(trace: seq<Entry>, a: string, b: string) {
    exists e :: e in trace && e.id == a && b in e.outcome.Next()
  }

  ghost predicate IsPath(trace: seq<Entry>, roots: seq<string>, path: seq<string>) {
    && path != []
    && path[0] in roots
    && forall i :: 0 <= i < |path| - 1 ==> Chose(trace, path[i], path[i + 1])
  }

  /** Some path of chosen successors leads from the start list to `x`. */
  ghost predicate Reached(trace: seq<Entry>, roots: seq<string>, x: string) {
    exists path :: IsPath(trace, roots, path) && path[|path| - 1] == x
  }

  // ---- The loop invariant ----

  ghost predicate Distinct(trace: seq<Entry>) {
    forall i, j :: 0 <= i < j < |trace| ==> trace[i].id != trace[j].id
  }

  ghost predicate Faithful(env: Env, g: Graph, trace: seq<Entry>) {
    forall e :: e in trace ==>
      && e.id in g.nodes
      && e.node == g.nodes[e.id]
      && e.outcome == env.exec(e.id, e.node, e.before)
  }

  /** The stop is the one the last entry calls for; every entry before it goes on. */
  ghost predicate StopExplained(env: Env, p: Progress) {
    && (forall i :: 0 <= i < |p.trace| - 1 ==> p.trace[i].outcome.GoesOn())
    && (p.stop.None? || Polled(p) ==> forall e :: e in p.trace ==> e.outcome.GoesOn())
    && (p.stop.Some? && !Polled(p) ==> p.trace != [] && p.stop == StopOf(env, p.trace[|p.trace| - 1].outcome))
  }

  predicate Polled(p: Progress) {
    p.stop == Some(LostLease) || p.stop == Some(SawCancel)
  }

  ghost predicate Pending(stack: seq<string>, p: Progress, x: string) {
    x in p.visited || x in stack
  }

  /** Nothing the walk owes is forgotten: start ids and chosen successors are visited or on the stack. */
  ghost predicate Owed(start: seq<string>, stack: seq<string>, p: Progress) {
    && (forall x :: x in start ==> Pending(stack, p, x))
    && (forall e, x :: e in p.trace && e.outcome.GoesOn() && x in e.outcome.Next() ==> Pending(stack, p, x))
  }

  /** The bookkeeping of executed nodes. */
  ghost predicate Booked(env: Env, g: Graph, p: Progress) {
    && Ids(p.trace) == p.visited * g.nodes.Keys
    && Distinct(p.trace)
    && Faithful(env, g, p.trace)
    && StopExplained(env, p)
  }

  /** Whatever was visited or waits on the stack was reached from the start list. */
  ghost predicate Grounded(start: seq<string>, stack: seq<string>, p: Progress) {
    forall x :: Pending(stack, p, x) ==> Reached(p.trace, start, x)
  }

  ghost predicate Inv(env: Env, g: Graph, start: seq<string>, stack: seq<string>, p: Progress) {
    && Booked(env, g, p)
    && (!Polled(p) ==> Owed(start, stack, p))
    && Grounded(start, stack, p)
  }

  lemma StartInv(env: Env, g: Graph, start: seq<string>, ctx: Context)
    ensures Inv(env, g, start, start, Fresh(ctx))
  {
    forall x | x in start
      ensures Reached([], start, x)
    {
      assert IsPath([], start, [x]);
    }
  }

  lemma ReachedGrows(trace: seq<Entry>, e: Entry, roots: seq<string>, x: string)
    requires Reached(trace, roots, x)
    ensures Reached(trace + [e], roots, x)
  {
  }

  lemma ReachedStep(trace: seq<Entry>, roots: seq<string>, a: string, b: string)
    requires Reached(trace, roots, a) && Chose(trace, a, b)
    ensures Reached(trace, roots, b)
  {
    var path :| IsPath(trace, roots, path) && path[|path| - 1] == a;
    assert IsPath(trace, roots, path + [b]);
  }

  lemma ReverseMembers<T>(s: seq<T>)
    ensures forall x :: x in Reverse(s) <==> x in s
  {
  }

  lemma RunKeepsBooked(env: Env, g: Graph, id: string, p: Progress)
    requires p.stop.None? && id in g.nodes && id !in p.visited
    requires Booked(env, g, p)
    ensures Booked(env, g, RunNode(env, g, id, p).0)
  {
    var q := RunNode(env, g, id, p).0;
    var e := q.trace[|p.trace|];
    assert q.trace == p.trace + [e];
    IdsPush(p.trace, e);
    forall i | 0 <= i < |p.trace|
      ensures p.trace[i].id != id
    {
      assert p.trace[i] in p.trace;
      assert p.trace[i].id in Ids(p.trace);
    }
  }

  lemma IdsPush(trace: seq<Entry>, e: Entry)
    ensures Ids(trace + [e]) == Ids(trace) + {e.id}
  {
  }

  /** `q` extends `p` by one entry for `id`, whose successors `next` are to be pushed. */
  ghost predicate Extends(p: Progress, q: Progress, id: string, e: Entry, next: seq<string>) {
    && q.visited == p.visited + {id}
    && q.trace == p.trace + [e]
    && e.id == id
    && next == if e.outcome.GoesOn() then e.outcome.Next() else []
  }

  lemma RunKeepsOwed(start: seq<string>, below: seq<string>, id: string, p: Progress, q: Progress, e: Entry, next: seq<string>)
    requires Extends(p, q, id, e, next)
    requires Owed(start, below + [id], p)
    ensures Owed(start, below + Reverse(next), q)
  {
    var stack, stack' := below + [id], below + Reverse(next);
    ReverseMembers(next);
    assert forall x :: Pending(stack, p, x) ==> Pending(stack', q, x);
    assert forall x :: x in next ==> Pending(stack', q, x);
  }

  lemma RunKeepsGrounded(start: seq<string>, below: seq<string>, id: string, p: Progress, q: Progress, e: Entry, next: seq<string>)
    requires Extends(p, q, id, e, next)
    requires Grounded(start, below + [id], p)
    ensures Grounded(start, below + Reverse(next), q)
  {
    var stack, stack' := below + [id], below + Reverse(next);
    ReverseMembers(next);
    assert Pending(stack, p, id);
    ReachedGrows(p.trace, e, start, id);
    forall x | Pending(stack', q, x)
      ensures Reached(q.trace, start, x)
    {
      if Pending(stack, p, x) {
        ReachedGrows(p.trace, e, start, x);
      } else {
        assert e in q.trace;
        assert Chose(q.trace, id, x);
        ReachedStep(q.trace, start, id, x);
      }
    }
  }

  /** An iteration that runs no node: the id was visited, is dangling, or a poll stopped the loop. */
  lemma SkipKeepsInv(env: Env, g: Graph, start: seq<string>, below: seq<string>, id: string, p: Progress, q: Progress)
    requires p.stop.None? && Inv(env, g, start, below + [id], p)
    requires q.trace == p.trace && (q.stop.None? || Polled(q))
    requires q.visited == p.visited || (q.visited == p.visited + {id} && id !in g.nodes)
    requires q.stop.None? ==> id in q.visited
    ensures Inv(env, g, start, below, q)
  {
    var stack := below + [id];
    assert id in stack;
    assert Booked(env, g, q) by {
      assert q.visited * g.nodes.Keys == p.visited * g.nodes.Keys;
    }
    assert Grounded(start, below, q) by {
      assert forall x :: Pending(below, q, x) ==> Pending(stack, p, x);
    }
    if q.stop.None? {
      assert forall x :: Pending(stack, p, x) ==> Pending(below, q, x);
    }
  }

  lemma RunKeepsInv(env: Env, g: Graph, start: seq<string>, below: seq<string>, id: string, p: Progress, q: Progress, next: seq<string>)
    requires p.stop.None? && id in g.nodes && id !in p.visited
    requires Inv(env, g, start, below + [id], p)
    requires (q, next) == RunNode(env, g, id, p)
    ensures Inv(env, g, start, below + Reverse(next), q)
  {
    RunKeepsBooked(env, g, id, p);
    var e := q.trace[|p.trace|];
    assert Extends(p, q, id, e, next);
    RunKeepsOwed(start, below, id, p, q, e, next);
    RunKeepsGrounded(start, below, id, p, q, e, next);
  }

  lemma SkippedKeepsInv(env: Env, g: Graph, start: seq<string>, below: seq<string>, id: string, p: Progress, q: Progress)
    requires p.stop.None? && Inv(env, g, start, below + [id], p)
    requires !Runs(env, g, id, p) && q == Skipped(env, g, id, p)
    ensures Inv(env, g, start, below, q)
  {
    SkipKeepsInv(env, g, start, below, id, p, q);
  }

  /** Every iteration keeps the invariant. */
  lemma PopKeepsInv(env: Env, g: Graph, start: seq<string>, below: seq<string>, id: string, p: Progress, q: Progress, next: seq<string>)
    requires p.stop.None?
    requires Inv(env, g, start, below + [id], p)
    requires (q, next) == Pop(env, g, id, p)
    ensures Inv(env, g, start, below + Reverse(next), q)
  {
    if Runs(env, g, id, p) {
      PopThatRuns(env, g, id, p);
      RunKeepsInv(env, g, start, below, id, p, q, next);
    } else {
      PopThatSkips(env, g, id, p);
      assert below + Reverse([]) == below;
      SkippedKeepsInv(env, g, start, below, id, p, q);
    }
  }

  lemma {:induction false} MachineKeepsInv(env: Env, g: Graph, start: seq<string>, stack: seq<string>, p: Progress)
    requires Inv(env, g, start, stack, p)
    ensures
      var (q, rest) := Machine(env, g, stack, p);
      Inv(env, g, start, rest, q)
    decreases Unvisited(g, p), |stack|
  {
    if p.stop.None? && stack != [] {
      var id, below := stack[|stack| - 1], stack[..|stack| - 1];
      assert stack == below + [id];
      var (q, next) := Pop(env, g, id, p);
      PopKeepsInv(env, g, start, below, id, p, q, next);
      MachineKeepsInv(env, g, start, below + Reverse(next), q);
    }
  }

  /** The state a whole segment ends in, and the stack it leaves behind. */
  function Segment(env: Env, g: Graph, start: seq<string>, ctx: Context): (Progress, seq<string>) {
    Machine(env, g, start, Fresh(ctx))
  }

  lemma SegmentInv(env: Env, g: Graph, start: seq<string>, ctx: Context)
    ensures
      var (p, rest) := Segment(env, g, start, ctx);
      Inv(env, g, start, rest, p) && (p.stop.None? ==> rest == [])
  {
    StartInv(env, g, start, ctx);
    MachineKeepsInv(env, g, start, start, Fresh(ctx));
    DrainedWhenNotStopped(env, g, start, Fresh(ctx));
  }

  lemma {:induction false} DrainedWhenNotStopped(env: Env, g: Graph, stack: seq<string>, p: Progress)
    ensures
      var (q, rest) := Machine(env, g, stack, p);
      q.stop.None? ==> rest == []
    decreases Unvisited(g, p), |stack|
  {
    if p.stop.None? && stack != [] {
      var (q, next) := Pop(env, g, stack[|stack| - 1], p);
      DrainedWhenNotStopped(env, g, stack[..|stack| - 1] + Reverse(next), q);
    }
  }

  // ---- Consequences ----

  /** No node is executed twice in a segment. */
  lemma ExecutesAtMostOnce(env: Env, g: Graph, start: seq<string>, ctx: Context)
    ensures Distinct(Segment(env, g, start, ctx).0.trace)
  {
    SegmentInv(env, g, start, ctx);
  }

  /** Whatever is reached stays inside any set that holds the start list and is closed under chosen successors. */
  lemma ReachedStaysInside(trace: seq<Entry>, roots: seq<string>, s: iset<string>, x: string)
    requires forall r :: r in roots ==> r in s
    requires forall a, b :: a in s && Chose(trace, a, b) ==> b in s
    requires Reached(trace, roots, x)
    ensures x in s
  {
    var path :| IsPath(trace, roots, path) && path[|path| - 1] == x;
    PathStaysInside(trace, roots, s, path, |path| - 1);
  }

  lemma {:induction false} PathStaysInside(trace: seq<Entry>, roots: seq<string>, s: iset<string>, path: seq<string>, i: nat)
    requires forall r :: r in roots ==> r in s
    requires forall a, b :: a in s && Chose(trace, a, b) ==> b in s
    requires IsPath(trace, roots, path) && i < |path|
    ensures path[i] in s
  {
    if i > 0 {
      PathStaysInside(trace, roots, s, path, i - 1);
      assert Chose(trace, path[i - 1], path[i]);
    }
  }

  /**
   When the loop drains, the executed nodes are exactly the graph nodes reachable
   from the start list through the successors actually chosen.
   */
  lemma DrainExecutesExactlyReachable(env: Env, g: Graph, start: seq<string>, ctx: Context, x: string)
    requires Segment(env, g, start, ctx).0.stop.None?
    ensures
      var trace := Segment(env, g, start, ctx).0.trace;
      x in Ids(trace) <==> x in g.nodes && Reached(trace, start, x)
  {
    var (p, rest) := Segment(env, g, start, ctx);
    SegmentInv(env, g, start, ctx);
    if x in Ids(p.trace) {
      assert Pending(rest, p, x);
    }
    if x in g.nodes && Reached(p.trace, start, x) {
      var s := iset y | y in p.visited;
      assert forall r :: r in start ==> Pending(rest, p, r);
      forall a, b | a in s && Chose(p.trace, a, b)
        ensures b in s
      {
        var e :| e in p.trace && e.id == a && b in e.outcome.Next();
        assert Pending(rest, p, b);
      }
      ReachedStaysInside(p.trace, start, s, x);
    }
  }
}
