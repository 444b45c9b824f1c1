/**
 Conditional branches: which nodes can still be executed once a condition has
 picked a side (backend/src/engine/graph.rs:43-72, engine/executor.rs:653-719).
 */
module Branching {
  import opened Wrappers
  import opened JsonValues
  import opened Graphs
  import opened Executor
  import opened Walks
  import opened Runs
  import opened NodeLaws

  /** A condition that was executed, and whose code answered with a Boolean result, did not take this edge. */
  ghost predicate Untaken(host: Host, trace: seq<Entry>, edge: Edge) {
    exists e :: e in trace && e.id == edge.source && Rejects(host, e, edge)
  }

  predicate Rejects(host: Host, e: Entry, edge: Edge) {
    && e.node.kind == "condition"
    && var r := host.handlers.handler(e.node, e.before);
       && r.Outputs? && (Decides(r.outputs, true) || Decides(r.outputs, false))
       && edge.sourceHandle != Some(if Decides(r.outputs, true) then "cond-true" else "cond-false")
  }

  /** Consecutive edges of the snapshot leading from `a` to `b`. */
  ghost predicate EdgePath(es: seq<Edge>, path: seq<Edge>, a: string, b: string) {
    if path == [] then a == b
    else
      var last := path[|path| - 1];
      last in es && last.target == b && EdgePath(es, path[..|path| - 1], a, last.source)
  }

  /** What this node answered, if it was asked, names no existing node to continue with. */
  predicate SelectsNone(host: Host, g: Graph, e: Entry) {
    var r := host.handlers.handler(e.node, e.before);
    Asked(e.node.kind) && r.Outputs? && r.selectedNext.Some? ==> r.selectedNext.value !in g.nodes
  }

  ghost predicate NoSelection(host: Host, g: Graph, trace: seq<Entry>) {
    forall e :: e in trace ==> SelectsNone(host, g, e)
  }

  /** Without a selection, a chosen successor is the target of an outgoing edge the node does not reject. */
  lemma ChosenByEdge(host: Host, g: Graph, e: Entry, t: string)
    requires SelectsNone(host, g, e) && Did(host.handlers, g, e)
    requires t in e.outcome.Next()
    ensures exists edge :: edge in g.Outgoing(e.id) && edge.target == t && !Rejects(host, e, edge)
  {
    var r := host.handlers.handler(e.node, e.before);
    if e.node.kind == "condition" && r.Outputs? && Decides(r.outputs, true) {
      ConditionRan(host.handlers, g, e, r.outputs, r.selectedNext, true);
    } else if e.node.kind == "condition" && r.Outputs? && Decides(r.outputs, false) {
      ConditionRan(host.handlers, g, e, r.outputs, r.selectedNext, false);
    } else {
      UndecidedTakesAll(host, g, e, t);
    }
  }

  lemma UndecidedTakesAll(host: Host, g: Graph, e: Entry, t: string)
    requires SelectsNone(host, g, e) && Did(host.handlers, g, e) && t in e.outcome.Next()
    requires
      var r := host.handlers.handler(e.node, e.before);
      e.node.kind == "condition" && r.Outputs? ==> !Decides(r.outputs, true) && !Decides(r.outputs, false)
    ensures exists edge :: edge in g.Outgoing(e.id) && edge.target == t && !Rejects(host, e, edge)
  {
    var r := host.handlers.handler(e.node, e.before);
    if Delays(e.node.kind) {
      DelayRan(host.handlers, g, e);
    } else if Asked(e.node.kind) {
      AskedRan(host.handlers, g, e);
      if r.Outputs? { AnswerRan(host.handlers, g, e, r.outputs, r.selectedNext); }
    } else {
      OtherRan(host.handlers, g, e);
    }
    TargetsAreAll(g, e.id);
    AllByEdge(g.Outgoing(e.id), e.outcome.Next(), t);
  }

  lemma AllByEdge(es: seq<Edge>, next: seq<string>, t: string)
    requires AllTargets(es, next) && t in next
    ensures exists edge :: edge in es && edge.target == t
  {
    var i :| 0 <= i < |next| && next[i] == t;
    assert es[i] in es;
  }

  /** Each id occurs once in a trace, so an edge one entry accepts is not untaken. */
  lemma AcceptedIsTaken(host: Host, trace: seq<Entry>, e: Entry, edge: Edge)
    requires Distinct(trace) && e in trace && edge.source == e.id && !Rejects(host, e, edge)
    ensures !Untaken(host, trace, edge)
  {
  }

  /** Some path of snapshot edges leads to `x` from the start list without an untaken edge. */
  ghost predicate OpenTo(host: Host, es: seq<Edge>, trace: seq<Entry>, start: seq<string>, x: string) {
    exists a, path :: a in start && EdgePath(es, path, a, x) && forall edge :: edge in path ==> !Untaken(host, trace, edge)
  }

  lemma OpenStep(host: Host, es: seq<Edge>, trace: seq<Entry>, start: seq<string>, edge: Edge)
    requires OpenTo(host, es, trace, start, edge.source) && edge in es && !Untaken(host, trace, edge)
    ensures OpenTo(host, es, trace, start, edge.target)
  {
    var a, path :| a in start && EdgePath(es, path, a, edge.source) && forall c :: c in path ==> !Untaken(host, trace, c);
    var longer := path + [edge];
    assert longer[..|longer| - 1] == path;
    assert EdgePath(es, longer, a, edge.target);
  }

  /**
   When no node that ran names an existing node to continue with, a node all of whose paths from
   the start list use an edge that an executed condition did not take is never executed.
   */
  lemma UntakenBranchesAreNotExecuted(host: Host, snapshot: Value, order: seq<string>, p: Progress, x: string)
    requires WellFormed(snapshot) && IsOrder(order, SnapshotGraph(snapshot).value)
    requires p == Walk(host, snapshot, order).0
    requires NoSelection(host, SnapshotGraph(snapshot).value, p.trace)
    requires
      var es := EdgeList(snapshot.GetArray("edges").value);
      var start := StartList(snapshot, SnapshotGraph(snapshot).value, order);
      forall a, path :: a in start && EdgePath(es, path, a, x) ==> exists edge :: edge in path && Untaken(host, p.trace, edge)
    ensures x !in Ids(p.trace)
  {
    var g := SnapshotGraph(snapshot).value;
    var env, start := EnvOf(host, g), StartList(snapshot, g, order);
    var rest := Walk(host, snapshot, order).1;
    SegmentInv(env, g, start, InitialContext(snapshot, g, order));
    if x in Ids(p.trace) {
      assert Pending(rest, p, x);
      ExecutedIsOpen(host, snapshot, g, start, p.trace, x);
      assert false;
    }
  }

  lemma ExecutedIsOpen(host: Host, snapshot: Value, g: Graph, start: seq<string>, trace: seq<Entry>, x: string)
    requires WellFormed(snapshot) && SnapshotGraph(snapshot) == Some(g) && NoSelection(host, g, trace)
    requires Faithful(EnvOf(host, g), g, trace) && Distinct(trace)
    requires Reached(trace, start, x)
    ensures OpenTo(host, EdgeList(snapshot.GetArray("edges").value), trace, start, x)
  {
    var es := EdgeList(snapshot.GetArray("edges").value);
    var s := iset y | OpenTo(host, es, trace, start, y);
    forall r | r in start
      ensures r in s
    {
      assert EdgePath(es, [], r, r);
    }
    forall a, b | a in s && Chose(trace, a, b)
      ensures b in s
    {
      var e :| e in trace && e.id == a && b in e.outcome.Next();
      ChosenByEdge(host, g, e, b);
      var edge :| edge in g.Outgoing(e.id) && edge.target == b && !Rejects(host, e, edge);
      OutgoingIsFilter(snapshot, e.id);
      FilterMembers(es, e.id);
      AcceptedIsTaken(host, trace, e, edge);
      OpenStep(host, es, trace, start, edge);
    }
    ReachedStaysInside(trace, start, s, x);
  }
}
