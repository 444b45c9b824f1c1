/**
 The main loop of `execute_run` (backend/src/engine/executor.rs): a depth-first
 walk of the workflow graph with an explicit stack, a visited set and a context
 that grows as nodes produce outputs. Node handlers, the clock and the polls are
 an environment the loop consults; a node runs at most once per segment, so an
 environment given as functions covers every behaviour of the real handlers.
 */
module Executor {
  import opened Wrappers
  import opened Sets
  import opened JsonValues
  import opened Graphs
  import opened NodeExecution

  /** What the lease renewal and the cancellation poll found before a node is looked at. */
  datatype Poll = Proceed | LeaseLost | CancelSeen

  /** Everything outside the loop, as functions the loop consults. */
  datatype Env = Env(
    exec: (string, Node, Context) -> Outcome,       // runs a node
    record: (Node, Context, Value) -> Context,      // stores its outputs
    poll: nat -> Poll,                              // by number of ids popped so far
    storable: int -> bool)                          // a resume time converts to a database timestamp

  // ---- The state of the loop ----

  datatype Entry = Entry(id: string, node: Node, before: Context, outcome: Outcome)

  datatype Stop =
    | LostLease
    | SawCancel
    | PausedUntil(resumeAt: int, next: seq<string>)
    | BadResumeTime
    | NodeFailed(message: string)

  datatype Progress = Progress(
    visited: set<string>,
    context: Context,
    trace: seq<Entry>,
    pops: nat,
    stop: Option<Stop>)

  function Fresh(ctx: Context): Progress {
    Progress({}, ctx, [], 0, None)
  }

  function StopOf(env: Env, o: Outcome): Option<Stop> {
    match o
    case Suspended(_, at, next) => if env.storable(at) then Some(PausedUntil(at, next)) else Some(BadResumeTime)
    case Fatal(message) => Some(NodeFailed(message))
    case _ => None
  }

  /** Runs one unvisited node of the graph. */
  function RunNode(env: Env, g: Graph, id: string, p: Progress): (r: (Progress, seq<string>))
    requires id in g.nodes
  {
    var node := g.nodes[id];
    var o := env.exec(id, node, p.context);
    var ctx := if o.Advanced? || o.Suspended? then env.record(node, p.context, o.outputs) else p.context;
    var q := Progress(p.visited + {id}, ctx, p.trace + [Entry(id, node, p.context, o)], p.pops + 1, StopOf(env, o));
    (q, if o.GoesOn() then o.next else [])
  }

  /** One iteration for the popped id: the new state, and the ids to visit next from left to right. */
  function Pop(env: Env, g: Graph, id: string, p: Progress): (r: (Progress, seq<string>))
    ensures p.visited <= r.0.visited
    ensures r.1 != [] ==> id in g.nodes && id !in p.visited && id in r.0.visited && r.0.stop.None?
    ensures Unvisited(g, r.0) <= Unvisited(g, p)
    ensures r.1 != [] ==> Unvisited(g, r.0) < Unvisited(g, p)
  {
    var r :=
      match env.poll(p.pops)
      case LeaseLost => (p.(pops := p.pops + 1, stop := Some(LostLease)), [])
      case CancelSeen => (p.(pops := p.pops + 1, stop := Some(SawCancel)), [])
      case Proceed =>
        if id in p.visited then (p.(pops := p.pops + 1), [])
        else if id !in g.nodes then (p.(pops := p.pops + 1, visited := p.visited + {id}), [])
        else RunNode(env, g, id, p);
    VisitingShrinks(g, p, r.0, id, r.1 != []);
    r
  }

  /** The number of graph nodes not yet visited: the first component of the termination measure. */
  ghost function Unvisited(g: Graph, p: Progress): nat {
    |g.nodes.Keys - p.visited|
  }

  lemma VisitingShrinks(g: Graph, p: Progress, q: Progress, id: string, ran: bool)
    requires p.visited <= q.visited
    requires ran ==> id in g.nodes && id !in p.visited && id in q.visited
    ensures Unvisited(g, q) <= Unvisited(g, p)
    ensures ran ==> Unvisited(g, q) < Unvisited(g, p)
  {
    var before, after := g.nodes.Keys - p.visited, g.nodes.Keys - q.visited;
    SubsetSize(after, before);
    if ran {
      assert after <= before - {id};
      SubsetSize(after, before - {id});
    }
  }

  // ---- Two readings of the loop ----

  function Reverse<T>(s: seq<T>): seq<T> {
    if s == [] then [] else [s[|s| - 1]] + Reverse(s[..|s| - 1])
  }

  /** The stack machine: the final state and what is left on the stack when it stops. */
  function Machine(env: Env, g: Graph, stack: seq<string>, p: Progress): (r: (Progress, seq<string>))
    decreases Unvisited(g, p), |stack|
  {
    if p.stop.Some? || stack == [] then (p, stack)
    else
      var top := |stack| - 1;
      var (q, next) := Pop(env, g, stack[top], p);
      Machine(env, g, stack[..top] + Reverse(next), q)
  }

  /** The recursive depth-first visit: take an id, then everything below it, then its right siblings. */
  function Descend(env: Env, g: Graph, ids: seq<string>, p: Progress): (r: Progress)
    ensures p.visited <= r.visited
    ensures Unvisited(g, r) <= Unvisited(g, p)
    decreases Unvisited(g, p), |ids|
  {
    if p.stop.Some? || ids == [] then p
    else
      var (q, next) := Pop(env, g, ids[0], p);
      Descend(env, g, ids[1..], Descend(env, g, next, q))
  }

  lemma {:induction false} ReverseConcat<T>(a: seq<T>, b: seq<T>)
    ensures Reverse(a + b) == Reverse(b) + Reverse(a)
    decreases |b|
  {
    if b == [] {
      assert a + b == a;
    } else {
      var last := |b| - 1;
      assert (a + b)[..|a + b| - 1] == a + b[..last];
      ReverseConcat(a, b[..last]);
    }
  }

  lemma {:induction false} ReverseTwice<T>(s: seq<T>)
    ensures Reverse(Reverse(s)) == s
  {
    if s != [] {
      var init, last := s[..|s| - 1], [s[|s| - 1]];
      ReverseConcat(last, Reverse(init));
      ReverseTwice(init);
      assert Reverse(last) == last;
    }
  }

  lemma ReversePrepend<T>(s: seq<T>, i: nat)
    requires i < |s|
    ensures Reverse(s[i..]) == Reverse(s[i + 1..]) + [s[i]]
  {
    assert s[i..] == [s[i]] + s[i + 1..];
    ReverseConcat([s[i]], s[i + 1..]);
  }

  lemma DescendStep(env: Env, g: Graph, ids: seq<string>, p: Progress, rest: seq<string>, below: Progress)
    requires p.stop.None? && ids != [] && rest == ids[1..]
    requires below == Descend(env, g, Pop(env, g, ids[0], p).1, Pop(env, g, ids[0], p).0)
    ensures Descend(env, g, ids, p) == Descend(env, g, rest, below)
  {
  }

  /** Visiting a concatenation is visiting its parts in turn. */
  lemma {:induction false} DescendConcat(env: Env, g: Graph, a: seq<string>, b: seq<string>, p: Progress)
    ensures Descend(env, g, a + b, p) == Descend(env, g, b, Descend(env, g, a, p))
    decreases Unvisited(g, p), |a|
  {
    if a == [] {
      assert a + b == b;
    } else if p.stop.None? {
      var r := Pop(env, g, a[0], p);
      var below := Descend(env, g, r.1, r.0);
      assert (a + b)[1..] == a[1..] + b;
      DescendStep(env, g, a + b, p, a[1..] + b, below);
      DescendStep(env, g, a, p, a[1..], below);
      DescendConcat(env, g, a[1..], b, below);
    }
  }

  /**
   The explicit-stack loop is the recursive visit: same nodes in the same order,
   same contexts, same polls, same stopping point, for every graph and environment.
   */
  lemma {:induction false} StackIsRecursion(env: Env, g: Graph, stack: seq<string>, p: Progress)
    ensures Machine(env, g, stack, p).0 == Descend(env, g, Reverse(stack), p)
    decreases Unvisited(g, p), |stack|
  {
    if p.stop.None? && stack != [] {
      var top := |stack| - 1;
      var (q, next) := Pop(env, g, stack[top], p);
      var rest := stack[..top];
      StackIsRecursion(env, g, rest + Reverse(next), q);
      ReverseConcat(rest, Reverse(next));
      ReverseTwice(next);
      DescendConcat(env, g, next, Reverse(rest), q);
      assert Reverse(stack)[1..] == Reverse(rest);
    }
  }

  /** Pushes the chosen successors from last to first, so that the first is popped first. */
  method PushReversed(stack: seq<string>, next: seq<string>) returns (r: seq<string>)
    ensures r == stack + Reverse(next)
  {
    r := stack;
    for i := |next| downto 0
      invariant r == stack + Reverse(next[i..])
    {
      ReversePrepend(next, i);
      r := r + [next[i]];
    }
    assert next[0..] == next;
  }

  /** The body of one iteration, for the id just popped. */
  method Iterate(env: Env, g: Graph, id: string, p: Progress) returns (q: Progress, next: seq<string>)
    requires p.stop.None?
    ensures (q, next) == Pop(env, g, id, p)
  {
    q, next := p.(pops := p.pops + 1), [];
    match env.poll(p.pops)
    case LeaseLost => q := q.(stop := Some(LostLease));
    case CancelSeen => q := q.(stop := Some(SawCancel));
    case Proceed =>
      if id in q.visited { return; }
      q := q.(visited := q.visited + {id});
      if id !in g.nodes { return; }
      var node := g.nodes[id];
      var o := env.exec(id, node, q.context);
      q := q.(trace := q.trace + [Entry(id, node, q.context, o)], stop := StopOf(env, o));
      match o
      case Advanced(outputs, targets) =>
        q := q.(context := env.record(node, q.context, outputs));
        next := targets;
      case Suspended(outputs, _, _) =>
        q := q.(context := env.record(node, q.context, outputs));
      case Tolerated(_, targets) =>
        next := targets;
      case Fatal(_) =>
  }

  // ---- The two kinds of iteration ----

  predicate Runs(env: Env, g: Graph, id: string, p: Progress) {
    env.poll(p.pops).Proceed? && id in g.nodes && id !in p.visited
  }

  lemma PopThatRuns(env: Env, g: Graph, id: string, p: Progress)
    requires p.stop.None? && Runs(env, g, id, p)
    ensures Pop(env, g, id, p) == RunNode(env, g, id, p)
  {
  }

  /** The state after an iteration that runs no node. */
  function Skipped(env: Env, g: Graph, id: string, p: Progress): Progress {
    match env.poll(p.pops)
    case LeaseLost => p.(pops := p.pops + 1, stop := Some(LostLease))
    case CancelSeen => p.(pops := p.pops + 1, stop := Some(SawCancel))
    case Proceed => p.(pops := p.pops + 1, visited := if id in p.visited then p.visited else p.visited + {id})
  }

  lemma PopThatSkips(env: Env, g: Graph, id: string, p: Progress)
    requires !Runs(env, g, id, p)
    ensures Pop(env, g, id, p) == (Skipped(env, g, id, p), [])
  {
  }

  /** An iteration adds at most one entry to the trace, for the id it popped. */
  lemma PopTrace(env: Env, g: Graph, id: string, p: Progress)
    requires p.stop.None?
    ensures
      var t := Pop(env, g, id, p).0.trace;
      t == p.trace || (|t| == |p.trace| + 1 && t[..|p.trace|] == p.trace && t[|p.trace|].id == id)
  {
    if Runs(env, g, id, p) {
      PopThatRuns(env, g, id, p);
    } else {
      PopThatSkips(env, g, id, p);
    }
  }
}
