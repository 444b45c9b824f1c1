/**
 Three stored runs that show what a pause can do to a run: lose a node that was waiting
 on the stack, start the run over, and let the context gain a key. The data of their nodes,
 and what the nodes produce, are arbitrary: a delay node may hold any configuration on which
 a host waits, such as {"config": {"mode": "duration", "wait_for": {"minutes": 5}}}.
 */
module Scenarios {
  import opened Wrappers
  import opened JsonValues
  import opened Secrets
  import opened Graphs
  import opened NodeExecution
  import opened Executor
  import opened Walks
  import opened Runs
  import opened Resumption

  const TRIGGER := "trigger"
  const DELAY := "delay"
  const ACTION := "action"

  // ---- Writing a workflow as a snapshot ----

  function NodeValue(n: Node): Value {
    Object(map["id" := String(n.id), "type" := String(n.kind), "data" := n.data])
  }

  function EdgeValue(e: Edge): Value {
    var fields := map["id" := String(e.id), "source" := String(e.source), "target" := String(e.target)];
    Object(match e.sourceHandle case Some(h) => fields["sourceHandle" := String(h)] case None => fields)
  }

  function Snapshot(nodes: seq<Node>, edges: seq<Edge>, settings: map<string, Value>): Value {
    Object(settings["nodes" := Array(NodeValues(nodes))]["edges" := Array(EdgeValues(edges))])
  }

  function NodeValues(nodes: seq<Node>): seq<Value> {
    seq(|nodes|, i requires 0 <= i < |nodes| => NodeValue(nodes[i]))
  }

  function EdgeValues(edges: seq<Edge>): seq<Value> {
    seq(|edges|, i requires 0 <= i < |edges| => EdgeValue(edges[i]))
  }

  predicate DistinctIds(nodes: seq<Node>) {
    forall i, j :: 0 <= i < j < |nodes| ==> nodes[i].id != nodes[j].id
  }

  /** The graph with these nodes, each under its own id, and these edges. */
  ghost predicate IsGraphOf(g: Graph, nodes: seq<Node>, edges: seq<Edge>) {
    && (forall n :: n in nodes ==> n.id in g.nodes && g.nodes[n.id] == n)
    && (forall id :: id in g.nodes ==> exists n :: n in nodes && n.id == id)
    && (forall id :: g.Outgoing(id) == FilterBySource(edges, id))
  }

  lemma NodeValueReads(n: Node)
    ensures NodeShaped(NodeValue(n)) && NodeOf(NodeValue(n)) == n
  {
  }

  lemma EdgeValueReads(e: Edge)
    ensures EdgeShaped(EdgeValue(e)) && EdgeOf(EdgeValue(e)) == e
  {
  }

  lemma NodeValuesRead(nodes: seq<Node>)
    ensures forall v :: v in NodeValues(nodes) ==> NodeShaped(v)
    ensures forall i :: 0 <= i < |nodes| ==> NodeShaped(NodeValues(nodes)[i]) && NodeOf(NodeValues(nodes)[i]) == nodes[i]
  {
    forall i | 0 <= i < |nodes|
      ensures NodeShaped(NodeValues(nodes)[i]) && NodeOf(NodeValues(nodes)[i]) == nodes[i]
    {
      NodeValueReads(nodes[i]);
    }
  }

  lemma EdgeValuesRead(edges: seq<Edge>)
    ensures forall v :: v in EdgeValues(edges) ==> EdgeShaped(v)
    ensures EdgeList(EdgeValues(edges)) == edges
  {
    forall i | 0 <= i < |edges|
      ensures EdgeShaped(EdgeValues(edges)[i]) && EdgeOf(EdgeValues(edges)[i]) == edges[i]
    {
      EdgeValueReads(edges[i]);
    }
  }

  lemma NodesAreKept(nodes: seq<Node>, m: map<string, Node>)
    requires DistinctIds(nodes)
    requires (forall v :: v in NodeValues(nodes) ==> NodeShaped(v)) && m == NodesById(NodeValues(nodes))
    ensures forall n :: n in nodes ==> n.id in m && m[n.id] == n
  {
    NodeValuesRead(nodes);
    forall n | n in nodes
      ensures n.id in m && m[n.id] == n
    {
      var i :| 0 <= i < |nodes| && nodes[i] == n;
      LastNodeWins(NodeValues(nodes), i);
    }
  }

  lemma NoOtherNodes(nodes: seq<Node>, m: map<string, Node>, id: string)
    requires (forall v :: v in NodeValues(nodes) ==> NodeShaped(v)) && m == NodesById(NodeValues(nodes))
    requires id in m
    ensures exists n :: n in nodes && n.id == id
  {
    var vs := NodeValues(nodes);
    NodeValuesRead(nodes);
    var v :| v in vs && NodeOf(v).id == id;
    var i :| 0 <= i < |vs| && vs[i] == v;
    assert nodes[i] in nodes;
  }

  lemma SnapshotArrays(nodes: seq<Node>, edges: seq<Edge>, settings: map<string, Value>, s: Value)
    requires s == Snapshot(nodes, edges, settings)
    ensures s.GetArray("nodes") == Some(NodeValues(nodes)) && s.GetArray("edges") == Some(EdgeValues(edges))
  {
  }

  /** Round trip: parsing what a workflow with distinct ids is written as gives the workflow back. */
  lemma SnapshotReadsBack(nodes: seq<Node>, edges: seq<Edge>, settings: map<string, Value>, s: Value)
    requires DistinctIds(nodes) && s == Snapshot(nodes, edges, settings)
    ensures WellFormed(s) && IsGraphOf(SnapshotGraph(s).value, nodes, edges)
  {
    SnapshotArrays(nodes, edges, settings, s);
    NodeValuesRead(nodes);
    EdgeValuesRead(edges);
    var g := SnapshotGraph(s).value;
    NodesAreKept(nodes, g.nodes);
    forall id | id in g.nodes ensures exists n :: n in nodes && n.id == id { NoOtherNodes(nodes, g.nodes, id); }
    forall id ensures g.Outgoing(id) == FilterBySource(edges, id) { OutgoingIsFilter(s, id); }
  }

  lemma SettingReads(nodes: seq<Node>, edges: seq<Edge>, settings: map<string, Value>, s: Value, key: string)
    requires s == Snapshot(nodes, edges, settings) && key != "nodes" && key != "edges"
    ensures s.Get(key) == if key in settings then Some(settings[key]) else None
  {
  }

  /** An edge without a handle. */
  function Arrow(source: string, target: string): Edge {
    Edge("", source, target, None)
  }

  /** The targets of the edges from `id`, in order. */
  function TargetsIn(es: seq<Edge>, id: string): seq<string> {
    if es == [] then []
    else
      var last := es[|es| - 1];
      TargetsIn(es[..|es| - 1], id) + (if last.source == id then [last.target] else [])
  }

  lemma {:induction false} TargetsAreThoseIn(es: seq<Edge>, id: string)
    ensures |FilterBySource(es, id)| == |TargetsIn(es, id)|
    ensures forall i :: 0 <= i < |TargetsIn(es, id)| ==> FilterBySource(es, id)[i].target == TargetsIn(es, id)[i]
  {
    if es != [] {
      TargetsAreThoseIn(es[..|es| - 1], id);
    }
  }

  lemma GraphTargets(g: Graph, nodes: seq<Node>, es: seq<Edge>, id: string)
    requires IsGraphOf(g, nodes, es)
    ensures g.Targets(id) == TargetsIn(es, id)
  {
    TargetsAreThoseIn(es, id);
  }

  lemma TargetsInOne(a: Edge, id: string)
    ensures TargetsIn([a], id) == if a.source == id then [a.target] else []
  {
    assert [a][..0] == [];
  }

  lemma TargetsInTwo(a: Edge, b: Edge, id: string)
    ensures TargetsIn([a, b], id) == (if a.source == id then [a.target] else []) + (if b.source == id then [b.target] else [])
  {
    TargetsInOne(a, id);
    assert [a, b][..1] == [a];
  }

  lemma TargetsInThree(a: Edge, b: Edge, c: Edge, id: string)
    ensures TargetsIn([a, b, c], id)
         == (if a.source == id then [a.target] else []) + (if b.source == id then [b.target] else [])
          + (if c.source == id then [c.target] else [])
  {
    TargetsInTwo(a, b, id);
    assert [a, b, c][..2] == [a, b];
  }

  // ---- What a host does at a node ----

  /** Storage works and nothing takes the run away. */
  ghost predicate Healthy(host: Host) {
    && host.hydration.None? && Retried(host.recordEvents) && Retried(host.complete) && Retried(host.pause)
    && forall k: nat :: host.poll(k) == Proceed
  }

  /** The node produces outputs, whatever the context, and selects no successor. */
  ghost predicate Answers(host: Host, n: Node) {
    forall ctx :: host.handlers.handler(n, ctx).Outputs? && host.handlers.handler(n, ctx).selectedNext.None?
  }

  predicate Waits(host: Host, n: Node) {
    host.handlers.delay(n).Wait? && host.storable(host.handlers.delay(n).resumeAt)
  }

  function WaitsUntil(host: Host, n: Node): int {
    match host.handlers.delay(n) case Wait(_, at) => at case _ => 0
  }

  predicate PassesOn(host: Host, n: Node) {
    host.handlers.delay(n).NoWait?
  }

  // ---- Steps of the loop ----

  ghost predicate Advances(env: Env, g: Graph, id: string) {
    id in g.nodes && forall ctx ::
      env.exec(id, g.nodes[id], ctx).Advanced? && env.exec(id, g.nodes[id], ctx).next == g.Targets(id)
  }

  ghost predicate Suspends(env: Env, g: Graph, id: string, at: int) {
    && env.storable(at)
    && id in g.nodes && forall ctx ::
         && env.exec(id, g.nodes[id], ctx).Suspended? && env.exec(id, g.nodes[id], ctx).resumeAt == at
         && env.exec(id, g.nodes[id], ctx).next == g.Targets(id)
  }

  lemma AnsweringAdvances(host: Host, g: Graph, id: string)
    requires id in g.nodes && Answers(host, g.nodes[id])
    requires g.nodes[id].kind == TRIGGER || g.nodes[id].kind == ACTION
    ensures Advances(EnvOf(host, g), g, id)
  {
  }

  lemma PassingAdvances(host: Host, g: Graph, id: string)
    requires id in g.nodes && g.nodes[id].kind == DELAY && PassesOn(host, g.nodes[id])
    ensures Advances(EnvOf(host, g), g, id)
  {
  }

  lemma WaitingSuspends(host: Host, g: Graph, id: string)
    requires id in g.nodes && g.nodes[id].kind == DELAY && Waits(host, g.nodes[id])
    ensures Suspends(EnvOf(host, g), g, id, WaitsUntil(host, g.nodes[id]))
  {
  }

  /** The walk ran these nodes, in this order, and has visited no other id. */
  ghost predicate HasRun(p: Progress, ids: seq<string>) {
    && (forall id :: id in p.visited <==> id in ids)
    && |p.trace| == |ids| && forall i :: 0 <= i < |ids| ==> p.trace[i].id == ids[i]
  }

  function RanAll(ids: seq<string>): seq<Event> {
    seq(|ids|, i requires 0 <= i < |ids| => Ran(ids[i]))
  }

  lemma RanIsLogged(p: Progress, ids: seq<string>)
    requires HasRun(p, ids)
    ensures RanEvents(p.trace) == RanAll(ids)
  {
  }

  /** The loop goes on, having run these nodes. */
  ghost predicate On(env: Env, p: Progress, ids: seq<string>) {
    (forall k: nat :: env.poll(k) == Proceed) && p.stop.None? && HasRun(p, ids)
  }

  lemma RunsOne(env: Env, g: Graph, p: Progress, ids: seq<string>, id: string)
    requires On(env, p, ids) && id !in ids && id in g.nodes
    ensures Pop(env, g, id, p) == RunNode(env, g, id, p) && HasRun(RunNode(env, g, id, p).0, ids + [id])
  {
    PopThatRuns(env, g, id, p);
    RunExtends(env, g, p, ids, id);
  }

  lemma RunExtends(env: Env, g: Graph, p: Progress, ids: seq<string>, id: string)
    requires HasRun(p, ids) && id in g.nodes
    ensures HasRun(RunNode(env, g, id, p).0, ids + [id])
  {
  }

  lemma MachineStep(env: Env, g: Graph, stack: seq<string>, below: seq<string>, id: string, p: Progress, q: Progress, next: seq<string>)
    requires p.stop.None? && Pop(env, g, id, p) == (q, next) && stack == below + [id]
    ensures Machine(env, g, stack, p) == Machine(env, g, below + Reverse(next), q)
  {
    assert stack[..|below|] == below;
  }

  /** An iteration that runs a node, pushing its targets over what lies below. */
  lemma Steps(
      env: Env, g: Graph, stack: seq<string>, below: seq<string>, id: string, p: Progress, ids: seq<string>,
      stack': seq<string>, ids': seq<string>)
      returns (q: Progress)
    requires On(env, p, ids) && id !in ids && Advances(env, g, id)
    requires stack == below + [id] && stack' == below + Reverse(g.Targets(id)) && ids' == ids + [id]
    ensures Machine(env, g, stack, p) == Machine(env, g, stack', q)
    ensures On(env, q, ids')
    ensures q.context == env.record(g.nodes[id], p.context, env.exec(id, g.nodes[id], p.context).outputs)
  {
    RunsOne(env, g, p, ids, id);
    q := RunNode(env, g, id, p).0;
    MachineStep(env, g, stack, below, id, p, q, g.Targets(id));
  }

  /** The iteration that pauses, leaving what lies below on the stack. */
  lemma Stops(
      env: Env, g: Graph, stack: seq<string>, below: seq<string>, id: string, p: Progress, ids: seq<string>, at: int,
      ids': seq<string>)
      returns (q: Progress)
    requires On(env, p, ids) && id !in ids && Suspends(env, g, id, at)
    requires stack == below + [id] && ids' == ids + [id]
    ensures Machine(env, g, stack, p) == (q, below)
    ensures q.stop == Some(PausedUntil(at, g.Targets(id))) && HasRun(q, ids')
    ensures q.context == env.record(g.nodes[id], p.context, env.exec(id, g.nodes[id], p.context).outputs)
  {
    RunsOne(env, g, p, ids, id);
    q := RunNode(env, g, id, p).0;
    MachineStep(env, g, stack, below, id, p, q, []);
    assert below + Reverse<string>([]) == below;
    Ends(env, g, below, q);
  }

  /** The last node of a walk. */
  lemma Leaf(env: Env, g: Graph, id: string, p: Progress, ids: seq<string>, ids': seq<string>) returns (q: Progress)
    requires On(env, p, ids) && id !in ids && Advances(env, g, id) && g.Targets(id) == [] && ids' == ids + [id]
    ensures Machine(env, g, [id], p) == (q, []) && HasRun(q, ids') && q.stop.None?
  {
    q := Steps(env, g, [id], [], id, p, ids, [], ids');
    Ends(env, g, [], q);
  }

  /** The first iteration, for a start list of one node. */
  lemma Starts(env: Env, g: Graph, s: string, ctx: Context, stack: seq<string>) returns (q: Progress)
    requires (forall k: nat :: env.poll(k) == Proceed) && Advances(env, g, s) && Reverse(g.Targets(s)) == stack
    ensures Segment(env, g, [s], ctx) == Machine(env, g, stack, q)
    ensures On(env, q, [s])
    ensures q.context == env.record(g.nodes[s], ctx, env.exec(s, g.nodes[s], ctx).outputs)
  {
    assert [] + stack == stack;
    q := Steps(env, g, [s], [], s, Fresh(ctx), [], stack, [s]);
  }

  /** A start node, then a delay over what else the start node leads to. */
  lemma StartThenDelay(env: Env, g: Graph, s: string, d: string, others: seq<string>, ctx: Context, at: int)
      returns (p: Progress, q: Progress)
    requires (forall k: nat :: env.poll(k) == Proceed) && s != d
    requires Advances(env, g, s) && Suspends(env, g, d, at) && Reverse(g.Targets(s)) == others + [d]
    ensures Segment(env, g, [s], ctx) == (p, others)
    ensures HasRun(p, [s, d]) && p.stop == Some(PausedUntil(at, g.Targets(d)))
    ensures q.context == env.record(g.nodes[s], ctx, env.exec(s, g.nodes[s], ctx).outputs)
    ensures p.context == env.record(g.nodes[d], q.context, env.exec(d, g.nodes[d], q.context).outputs)
  {
    var stack := others + [d];
    q := Starts(env, g, s, ctx, stack);
    assert d !in [s] && [s] + [d] == [s, d];
    p := Stops(env, g, stack, others, d, q, [s], at, [s, d]);
  }

  lemma Ends(env: Env, g: Graph, stack: seq<string>, p: Progress)
    requires p.stop.Some? || stack == []
    ensures Machine(env, g, stack, p) == (p, stack)
  {
  }

  lemma ReverseOne<T>(a: T)
    ensures Reverse([a]) == [a]
  {
    assert Reverse([a]) == [a] + Reverse<T>([]);
  }

  lemma ReverseTwo<T>(a: T, b: T)
    ensures Reverse([a, b]) == [b, a]
  {
    ReverseConcat([a], [b]);
    assert [a] + [b] == [a, b];
    ReverseOne(a);
    ReverseOne(b);
  }

  // ---- What a walk leaves behind ----

  ghost predicate Enumerates(order: seq<string>, ids: set<string>) {
    && (forall id :: id in order <==> id in ids)
    && (forall i, j :: 0 <= i < j < |order| ==> order[i] != order[j])
  }

  /** One execution of a stored run and what it leaves behind. */
  ghost predicate Leaves(host: Host, stored: Value, order: seq<string>, r: RunResult, log: seq<Event>) {
    CanRun(host, stored, order) && RunMeaning(host, stored, order) == (r, log)
  }

  /** A stored run as read: nothing to fill in, this graph, start list and context. */
  ghost predicate SetsOut(
      host: Host, stored: Value, g: Graph, order: seq<string>, start: seq<string>, ctx: Context)
  {
    && Settled(stored, host.secrets)
    && SnapshotGraph(stored) == Some(g) && IsOrder(order, g)
    && start == StartList(stored, g, order) && ctx == InitialContext(stored, g, order)
  }

  lemma WalkIsExecution(
      host: Host, stored: Value, g: Graph, order: seq<string>, start: seq<string>, ctx: Context, p: Progress, rest: seq<string>)
    requires Healthy(host) && SetsOut(host, stored, g, order, start, ctx)
    requires (p, rest) == Segment(EnvOf(host, g), g, start, ctx)
    ensures CanRun(host, stored, order) && RunMeaning(host, stored, order) == AfterWalk(host, stored, p)
  {
    HydrateFixes(stored, host.secrets);
    RunIsItsWalk(Execution(host, stored, order, p, rest));
  }

  lemma Pauses(
      host: Host, stored: Value, g: Graph, order: seq<string>, start: seq<string>, ctx: Context, p: Progress, rest: seq<string>,
      ids: seq<string>, at: int, next: seq<string>)
    requires Healthy(host) && SetsOut(host, stored, g, order, start, ctx)
    requires (p, rest) == Segment(EnvOf(host, g), g, start, ctx) && HasRun(p, ids)
    requires p.stop == Some(PausedUntil(at, next))
    ensures Leaves(host, stored, order, Paused, RanAll(ids) + [PauseWritten(PausedSnapshot(host, stored, p.context, next, at), at)])
  {
    WalkIsExecution(host, stored, g, order, start, ctx, p, rest);
    PauseOutcome(host, stored, p, at, next);
    RanIsLogged(p, ids);
  }

  lemma Finishes(
      host: Host, stored: Value, g: Graph, order: seq<string>, start: seq<string>, ctx: Context, p: Progress, rest: seq<string>,
      ids: seq<string>)
    requires Healthy(host) && SetsOut(host, stored, g, order, start, ctx)
    requires (p, rest) == Segment(EnvOf(host, g), g, start, ctx) && HasRun(p, ids)
    requires p.stop.None?
    ensures Leaves(host, stored, order, Finished, RanAll(ids) + [Completed(Succeeded, None)])
  {
    WalkIsExecution(host, stored, g, order, start, ctx, p, rest);
    RanIsLogged(p, ids);
  }

  /** A run that starts from this named node: never paused, or paused with no successors to save. */
  predicate StartsNamed(stored: Value, start: string) {
    && stored.Object? && NamedStart(stored) == [start]
    && (stored.GetArray("_resume_from_nodes").Some? ==> Strings(stored.GetArray("_resume_from_nodes").value) == [])
  }

  lemma EnumeratesNodes(order: seq<string>, g: Graph)
    requires Enumerates(order, g.nodes.Keys)
    ensures IsOrder(order, g)
  {
  }

  lemma NamedSetsOut(host: Host, stored: Value, g: Graph, order: seq<string>, start: string)
    requires StartsNamed(stored, start) && stored.Get("_trigger_context").None? && Settled(stored, host.secrets)
    requires SnapshotGraph(stored) == Some(g) && IsOrder(order, g)
    ensures SetsOut(host, stored, g, order, [start], ResumeContext(stored))
  {
  }

  /** A paused run with no trigger payload sets out again from what was saved, or from the named start. */
  lemma PausedSetsOut(
      writer: Host, host: Host, stored: Value, g: Graph, order: seq<string>, ctx: Context, next: seq<string>, at: int,
      paused: Value)
    requires stored.Object? && SnapshotGraph(stored) == Some(g) && IsOrder(order, g)
    requires stored.Get("_trigger_context").None?
    requires paused == PausedSnapshot(writer, stored, ctx, next, at) && Settled(paused, host.secrets)
    ensures SetsOut(host, paused, g, order, if next != [] then next else NamedStart(stored), ctx)
  {
    PausedKeepsGraph(writer, stored, ctx, next, at);
    ResumedStartList(writer, stored, g, order, ctx, next, at);
    ResumedContext(writer, stored, g, order, ctx, next, at);
  }

  // ---- A fork: a delay with a sibling waiting on the stack ----

  const S := "s"
  const D := "d"
  const A := "a"
  const B := "b"

  /** What each node holds, by id. */
  type Data = string -> Value

  function ForkNodes(data: Data): seq<Node> {
    [Node(S, TRIGGER, data(S)), Node(D, DELAY, data(D)), Node(A, ACTION, data(A)), Node(B, ACTION, data(B))]
  }

  function ForkEdges(): seq<Edge> {
    [Arrow(S, D), Arrow(S, B), Arrow(D, A)]
  }

  function Fork(data: Data): Value {
    Snapshot(ForkNodes(data), ForkEdges(), map["_start_from_node" := String(S)])
  }

  ghost predicate ForkShape(g: Graph, data: Data) {
    && g.nodes.Keys == {S, D, A, B}
    && g.nodes[S] == Node(S, TRIGGER, data(S)) && g.nodes[D] == Node(D, DELAY, data(D))
    && g.nodes[A] == Node(A, ACTION, data(A)) && g.nodes[B] == Node(B, ACTION, data(B))
    && g.Targets(S) == [D, B] && g.Targets(D) == [A] && g.Targets(A) == [] && g.Targets(B) == []
  }

  lemma ForkTargets(g: Graph, nodes: seq<Node>, s: string, d: string, a: string, b: string)
    requires IsGraphOf(g, nodes, [Arrow(s, d), Arrow(s, b), Arrow(d, a)])
    requires s != d && s != a && s != b && d != a && d != b
    ensures g.Targets(s) == [d, b] && g.Targets(d) == [a] && g.Targets(a) == [] && g.Targets(b) == []
  {
    var x, y, z := Arrow(s, d), Arrow(s, b), Arrow(d, a);
    ThreeEdges(g, nodes, x, y, z, s);
    ThreeEdges(g, nodes, x, y, z, d);
    ThreeEdges(g, nodes, x, y, z, a);
    ThreeEdges(g, nodes, x, y, z, b);
  }

  lemma ThreeEdges(g: Graph, nodes: seq<Node>, x: Edge, y: Edge, z: Edge, id: string)
    requires IsGraphOf(g, nodes, [x, y, z])
    ensures g.Targets(id)
         == (if x.source == id then [x.target] else []) + (if y.source == id then [y.target] else [])
          + (if z.source == id then [z.target] else [])
  {
    GraphTargets(g, nodes, [x, y, z], id);
    TargetsInThree(x, y, z, id);
  }

  lemma FourNodes(g: Graph, a: Node, b: Node, c: Node, d: Node, es: seq<Edge>)
    requires IsGraphOf(g, [a, b, c, d], es)
    ensures g.nodes.Keys == {a.id, b.id, c.id, d.id}
    ensures g.nodes[a.id] == a && g.nodes[b.id] == b && g.nodes[c.id] == c && g.nodes[d.id] == d
  {
    var nodes := [a, b, c, d];
    assert nodes[0] in nodes && nodes[1] in nodes && nodes[2] in nodes && nodes[3] in nodes;
  }

  lemma ForkIs(data: Data, fork: Value) returns (g: Graph)
    requires fork == Fork(data)
    ensures SnapshotGraph(fork) == Some(g) && ForkShape(g, data)
    ensures StartsNamed(fork, S) && ResumeContext(fork) == map[] && fork.Get("_trigger_context").None?
  {
    var settings: map<string, Value> := map["_start_from_node" := String(S)];
    var nodes, edges := ForkNodes(data), ForkEdges();
    SnapshotReadsBack(nodes, edges, settings, fork);
    g := SnapshotGraph(fork).value;
    FourNodes(g, nodes[0], nodes[1], nodes[2], nodes[3], edges);
    ForkTargets(g, nodes, S, D, A, B);
    NewRunReads(nodes, edges, settings, fork, S);
    SettingReads(nodes, edges, settings, fork, "_trigger_context");
  }

  lemma NewRunReads(nodes: seq<Node>, edges: seq<Edge>, settings: map<string, Value>, s: Value, start: string)
    requires s == Snapshot(nodes, edges, settings)
    requires "_start_from_node" in settings && settings["_start_from_node"] == String(start)
    requires "_resume_from_nodes" !in settings && "_resume_context" !in settings
    ensures StartsNamed(s, start) && ResumeContext(s) == map[]
  {
    SettingReads(nodes, edges, settings, s, "_resume_from_nodes");
    SettingReads(nodes, edges, settings, s, "_resume_context");
    SettingReads(nodes, edges, settings, s, "_start_from_node");
  }

  /** The host answers at the trigger `start` and waits at the delay. */
  ghost predicate WaitsFrom(host: Host, data: Data, start: string) {
    Healthy(host) && Answers(host, Node(start, TRIGGER, data(start))) && Waits(host, Node(D, DELAY, data(D)))
  }

  /** The host answers everywhere and does not wait. */
  ghost predicate ForkPasses(host: Host, data: Data) {
    && Healthy(host) && Answers(host, Node(S, TRIGGER, data(S))) && PassesOn(host, Node(D, DELAY, data(D)))
    && Answers(host, Node(A, ACTION, data(A))) && Answers(host, Node(B, ACTION, data(B)))
  }

  /** Pauses at the delay, with the sibling left on the stack. */
  lemma ForkFirstWalk(host: Host, g: Graph, data: Data, ctx: Context) returns (p: Progress)
    requires ForkShape(g, data) && WaitsFrom(host, data, S)
    ensures Segment(EnvOf(host, g), g, [S], ctx) == (p, [B])
    ensures HasRun(p, [S, D]) && p.stop == Some(PausedUntil(WaitsUntil(host, Node(D, DELAY, data(D))), [A]))
  {
    AnsweringAdvances(host, g, S);
    WaitingSuspends(host, g, D);
    ReverseTwo(D, B);
    assert [B] + [D] == [B, D];
    var q;
    p, q := StartThenDelay(EnvOf(host, g), g, S, D, [B], ctx, WaitsUntil(host, Node(D, DELAY, data(D))));
  }

  /** The resumed walk runs the saved successor and drains. */
  lemma ForkSecondWalk(host: Host, g: Graph, data: Data, ctx: Context) returns (p: Progress)
    requires ForkShape(g, data) && Healthy(host) && Answers(host, Node(A, ACTION, data(A)))
    ensures Segment(EnvOf(host, g), g, [A], ctx) == (p, []) && HasRun(p, [A]) && p.stop.None?
  {
    AnsweringAdvances(host, g, A);
    p := Leaf(EnvOf(host, g), g, A, Fresh(ctx), [], [A]);
  }

  lemma ForkWholeWalk(host: Host, g: Graph, data: Data, ctx: Context) returns (p: Progress)
    requires ForkShape(g, data) && ForkPasses(host, data)
    ensures Segment(EnvOf(host, g), g, [S], ctx) == (p, []) && HasRun(p, [S, D, A, B]) && p.stop.None?
  {
    AnsweringAdvances(host, g, S);
    ReverseTwo(D, B);
    var q := Starts(EnvOf(host, g), g, S, ctx, [B, D]);
    p := ForkRest(host, g, data, q);
  }

  lemma ForkRest(host: Host, g: Graph, data: Data, q: Progress) returns (p: Progress)
    requires ForkShape(g, data) && ForkPasses(host, data) && On(EnvOf(host, g), q, [S])
    ensures Machine(EnvOf(host, g), g, [B, D], q) == (p, []) && HasRun(p, [S, D, A, B]) && p.stop.None?
  {
    PassingAdvances(host, g, D);
    AnsweringAdvances(host, g, A);
    AnsweringAdvances(host, g, B);
    ReverseOne(A);
    p := ForkDescends(EnvOf(host, g), g, D, A, B, q, [S], [S, D], [S, D, A], [S, D, A, B]);
  }

  /** A node that leads to `a`, over `b`, neither of which leads on. */
  lemma ForkDescends(
      env: Env, g: Graph, d: string, a: string, b: string, q: Progress,
      ids: seq<string>, ids': seq<string>, ids'': seq<string>, all: seq<string>)
      returns (p: Progress)
    requires On(env, q, ids) && d !in ids && a !in ids' && b !in ids''
    requires ids' == ids + [d] && ids'' == ids' + [a] && all == ids'' + [b]
    requires Reverse(g.Targets(d)) == [a] && g.Targets(a) == [] && g.Targets(b) == []
    requires Advances(env, g, d) && Advances(env, g, a) && Advances(env, g, b)
    ensures Machine(env, g, [b, d], q) == (p, []) && HasRun(p, all) && p.stop.None?
  {
    var q2 := Steps(env, g, [b, d], [b], d, q, ids, [b, a], ids');
    p := TwoLeaves(env, g, a, b, q2, ids', ids'', all);
  }

  /** The last two nodes of a walk, neither with targets. */
  lemma TwoLeaves(
      env: Env, g: Graph, a: string, b: string, q: Progress, ids: seq<string>, ids': seq<string>, ids'': seq<string>)
      returns (p: Progress)
    requires On(env, q, ids) && a !in ids && b !in ids' && ids' == ids + [a] && ids'' == ids' + [b]
    requires g.Targets(a) == [] && g.Targets(b) == [] && Advances(env, g, a) && Advances(env, g, b)
    ensures Machine(env, g, [b, a], q) == (p, []) && HasRun(p, ids'') && p.stop.None?
  {
    var q2 := Steps(env, g, [b, a], [b], a, q, ids, [b], ids');
    p := Leaf(env, g, b, q2, ids', ids'');
  }

  /**
   A pause can lose a node. On any host that waits at the delay, the fork pauses there; resumed
   from what the pause wrote, on any host, it finishes as succeeded. The sibling runs in neither
   execution, though it runs on any host that does not wait.
   */
  lemma PauseLosesTheSibling(
      waiting: Host, again: Host, through: Host, data: Data, fork: Value, order: seq<string>, order': seq<string>)
      returns (paused: Value)
    requires fork == Fork(data) && Settled(fork, waiting.secrets) && Settled(fork, through.secrets)
    requires WaitsFrom(waiting, data, S) && ForkPasses(through, data)
    requires Healthy(again) && Answers(again, Node(A, ACTION, data(A)))
    requires Enumerates(order, {S, D, A, B}) && Enumerates(order', {S, D, A, B})
    ensures Leaves(waiting, fork, order, Paused,
                   RanAll([S, D]) + [PauseWritten(paused, WaitsUntil(waiting, Node(D, DELAY, data(D))))])
    ensures Settled(paused, again.secrets) ==>
              Leaves(again, paused, order', Finished, RanAll([A]) + [Completed(Succeeded, None)])
    ensures Leaves(through, fork, order, Finished, RanAll([S, D, A, B]) + [Completed(Succeeded, None)])
  {
    var g := ForkIs(data, fork);
    var at := WaitsUntil(waiting, Node(D, DELAY, data(D)));
    EnumeratesNodes(order, g);
    EnumeratesNodes(order', g);
    NamedSetsOut(waiting, fork, g, order, S);
    var p := ForkFirstWalk(waiting, g, data, map[]);
    Pauses(waiting, fork, g, order, [S], map[], p, [B], [S, D], at, [A]);
    paused := PausedSnapshot(waiting, fork, p.context, [A], at);
    if Settled(paused, again.secrets) {
      PausedSetsOut(waiting, again, fork, g, order', p.context, [A], at, paused);
      var q := ForkSecondWalk(again, g, data, p.context);
      Finishes(again, paused, g, order', [A], p.context, q, [], [A]);
    }
    NamedSetsOut(through, fork, g, order, S);
    var u := ForkWholeWalk(through, g, data, map[]);
    Finishes(through, fork, g, order, [S], map[], u, [], [S, D, A, B]);
  }

  // ---- A delay without successors, and a named start ----

  function Loop(data: Data): Value {
    Snapshot([Node(S, TRIGGER, data(S)), Node(D, DELAY, data(D))], [Arrow(S, D)], map["_start_from_node" := String(S)])
  }

  ghost predicate LoopShape(g: Graph, data: Data) {
    && g.nodes.Keys == {S, D}
    && g.nodes[S] == Node(S, TRIGGER, data(S)) && g.nodes[D] == Node(D, DELAY, data(D))
    && g.Targets(S) == [D] && g.Targets(D) == []
  }

  /** A stored run of the loop, new or paused before. */
  ghost predicate Loops(stored: Value, data: Data) {
    && WellFormed(stored) && LoopShape(SnapshotGraph(stored).value, data)
    && StartsNamed(stored, S) && stored.Get("_trigger_context").None?
  }

  lemma TwoNodes(g: Graph, a: Node, b: Node, es: seq<Edge>)
    requires IsGraphOf(g, [a, b], es)
    ensures g.nodes.Keys == {a.id, b.id} && g.nodes[a.id] == a && g.nodes[b.id] == b
  {
    var nodes := [a, b];
    assert nodes[0] in nodes && nodes[1] in nodes;
  }

  lemma LoopTargets(g: Graph, nodes: seq<Node>, s: string, d: string)
    requires IsGraphOf(g, nodes, [Arrow(s, d)]) && s != d
    ensures g.Targets(s) == [d] && g.Targets(d) == []
  {
    GraphTargets(g, nodes, [Arrow(s, d)], s);
    GraphTargets(g, nodes, [Arrow(s, d)], d);
    TargetsInOne(Arrow(s, d), s);
    TargetsInOne(Arrow(s, d), d);
  }

  lemma LoopGraph(data: Data, loop: Value)
    requires loop == Loop(data)
    ensures WellFormed(loop) && LoopShape(SnapshotGraph(loop).value, data)
  {
    var nodes, edges := [Node(S, TRIGGER, data(S)), Node(D, DELAY, data(D))], [Arrow(S, D)];
    SnapshotReadsBack(nodes, edges, map["_start_from_node" := String(S)], loop);
    var g := SnapshotGraph(loop).value;
    TwoNodes(g, nodes[0], nodes[1], edges);
    LoopTargets(g, nodes, S, D);
  }

  lemma LoopLoops(data: Data)
    ensures Loops(Loop(data), data)
  {
    var settings: map<string, Value> := map["_start_from_node" := String(S)];
    var nodes, edges := [Node(S, TRIGGER, data(S)), Node(D, DELAY, data(D))], [Arrow(S, D)];
    LoopGraph(data, Loop(data));
    NewRunReads(nodes, edges, settings, Loop(data), S);
    SettingReads(nodes, edges, settings, Loop(data), "_trigger_context");
  }

  lemma LoopWalk(host: Host, g: Graph, data: Data, ctx: Context) returns (p: Progress)
    requires LoopShape(g, data) && WaitsFrom(host, data, S)
    ensures Segment(EnvOf(host, g), g, [S], ctx) == (p, [])
    ensures HasRun(p, [S, D]) && p.stop == Some(PausedUntil(WaitsUntil(host, Node(D, DELAY, data(D))), []))
  {
    AnsweringAdvances(host, g, S);
    WaitingSuspends(host, g, D);
    ReverseOne(D);
    assert [] + [D] == [D];
    var q;
    p, q := StartThenDelay(EnvOf(host, g), g, S, D, [], ctx, WaitsUntil(host, Node(D, DELAY, data(D))));
  }

  lemma PausedLoopLoops(host: Host, stored: Value, data: Data, ctx: Context, at: int)
    requires Loops(stored, data)
    ensures Loops(PausedSnapshot(host, stored, ctx, [], at), data)
  {
    PausedKeepsGraph(host, stored, ctx, [], at);
    PausedFields(host, stored, ctx, [], at);
    PausedNodes(host, stored, ctx, [], at);
  }

  /**
   A delay without successors starts the run over: any stored run of the loop, on any host that
   waits at the delay, runs the start node and the delay again and leaves such a stored run.
   */
  lemma LeafDelayStartsOver(host: Host, stored: Value, data: Data, order: seq<string>) returns (paused: Value)
    requires Loops(stored, data) && WaitsFrom(host, data, S)
    requires Settled(stored, host.secrets) && Enumerates(order, {S, D})
    ensures Leaves(host, stored, order, Paused,
                   RanAll([S, D]) + [PauseWritten(paused, WaitsUntil(host, Node(D, DELAY, data(D))))])
    ensures Loops(paused, data)
  {
    var g, ctx := SnapshotGraph(stored).value, ResumeContext(stored);
    var at := WaitsUntil(host, Node(D, DELAY, data(D)));
    EnumeratesNodes(order, g);
    NamedSetsOut(host, stored, g, order, S);
    var p := LoopWalk(host, g, data, ctx);
    Pauses(host, stored, g, order, [S], ctx, p, [], [S, D], at, []);
    paused := PausedSnapshot(host, stored, p.context, [], at);
    PausedLoopLoops(host, stored, data, p.context, at);
  }

  /** What one execution stores in place of what it executed, when it pauses. */
  ghost function StoredNext(host: Host, stored: Value, order: seq<string>): Value {
    if !CanRun(host, stored, order) then stored
    else
      var log := RunMeaning(host, stored, order).1;
      if log != [] && log[|log| - 1].PauseWritten? then log[|log| - 1].snapshot else stored
  }

  /** The k-th execution hands the run on to the next. */
  ghost predicate HandsOn(hosts: nat -> Host, stored: nat -> Value, order: seq<string>, k: nat) {
    stored(k + 1) == StoredNext(hosts(k), stored(k), order)
  }

  lemma {:induction false} NothingToHydrate(v: Value)
    ensures Settled(v, map[])
    decreases v
  {
    match v
    case Object(m) => forall k | k in m ensures Settled(m[k], map[]) { NothingToHydrate(m[k]); }
    case Array(items) => forall i | 0 <= i < |items| ensures Settled(items[i], map[]) { NothingToHydrate(items[i]); }
    case _ =>
  }

  lemma StoredNextIs(host: Host, stored: Value, order: seq<string>, ran: seq<Event>, paused: Value, at: int)
    requires Leaves(host, stored, order, Paused, ran + [PauseWritten(paused, at)])
    ensures StoredNext(host, stored, order) == paused
  {
  }

  /** Hosts that pick the run up one after another, each waiting at the delay, with no secrets. */
  ghost predicate AllWait(hosts: nat -> Host, data: Data) {
    forall k: nat :: WaitsFrom(hosts(k), data, S) && hosts(k).secrets == map[]
  }

  lemma OneExecution(host: Host, data: Data, order: seq<string>, stored: Value, next: Value)
    requires WaitsFrom(host, data, S) && host.secrets == map[] && Enumerates(order, {S, D}) && Loops(stored, data)
    requires next == StoredNext(host, stored, order)
    ensures Loops(next, data)
    ensures Leaves(host, stored, order, Paused, RanAll([S, D]) + [PauseWritten(next, WaitsUntil(host, Node(D, DELAY, data(D))))])
  {
    NothingToHydrate(stored);
    var paused := LeafDelayStartsOver(host, stored, data, order);
    StoredNextIs(host, stored, order, RanAll([S, D]), paused, WaitsUntil(host, Node(D, DELAY, data(D))));
  }

  lemma OneHandOver(hosts: nat -> Host, stored: nat -> Value, data: Data, order: seq<string>, k: nat)
    requires AllWait(hosts, data) && Enumerates(order, {S, D}) && Loops(stored(k), data)
    requires HandsOn(hosts, stored, order, k)
    ensures Loops(stored(k + 1), data)
    ensures Leaves(hosts(k), stored(k), order, Paused,
                   RanAll([S, D]) + [PauseWritten(stored(k + 1), WaitsUntil(hosts(k), Node(D, DELAY, data(D))))])
  {
    OneExecution(hosts(k), data, order, stored(k), stored(k + 1));
  }

  lemma {:induction false} HoldsThroughout(s: iset<nat>, n: nat)
    requires 0 in s && forall k: nat :: k in s ==> k + 1 in s
    ensures n in s
  {
    if n > 0 {
      HoldsThroughout(s, n - 1);
    }
  }

  lemma StoredStaysALoop(hosts: nat -> Host, stored: nat -> Value, data: Data, order: seq<string>, n: nat)
    requires AllWait(hosts, data) && Enumerates(order, {S, D}) && Loops(stored(0), data)
    requires forall k: nat :: HandsOn(hosts, stored, order, k)
    ensures Loops(stored(n), data)
  {
    var s := iset k: nat | Loops(stored(k), data);
    forall k: nat | k in s
      ensures k + 1 in s
    {
      OneHandOver(hosts, stored, data, order, k);
    }
    HoldsThroughout(s, n);
  }

  /**
   So it never ends: whatever hosts pick the run up one after another, as long as each waits at
   the delay, every execution pauses, having run both nodes, and hands the run to the next.
   */
  lemma LeafDelayRunsForever(hosts: nat -> Host, stored: nat -> Value, data: Data, order: seq<string>, n: nat)
    requires AllWait(hosts, data) && Enumerates(order, {S, D})
    requires stored(0) == Loop(data) && forall k: nat :: HandsOn(hosts, stored, order, k)
    ensures Leaves(hosts(n), stored(n), order, Paused,
                   RanAll([S, D]) + [PauseWritten(stored(n + 1), WaitsUntil(hosts(n), Node(D, DELAY, data(D))))])
  {
    LoopLoops(data);
    StoredStaysALoop(hosts, stored, data, order, n);
    OneHandOver(hosts, stored, data, order, n);
  }

  // ---- Two triggers ----

  const T := "t"
  const U := "u"

  function PairNodes(data: Data): seq<Node> {
    [Node(T, TRIGGER, data(T)), Node(U, TRIGGER, data(U)), Node(D, DELAY, data(D)), Node(A, ACTION, data(A))]
  }

  function Pair(data: Data, payload: Value): Value {
    Snapshot(PairNodes(data), [Arrow(T, D), Arrow(D, A)], PairSettings(payload))
  }

  ghost predicate PairShape(g: Graph, data: Data) {
    && g.nodes.Keys == {T, U, D, A}
    && g.nodes[T] == Node(T, TRIGGER, data(T)) && g.nodes[U] == Node(U, TRIGGER, data(U))
    && g.nodes[D] == Node(D, DELAY, data(D)) && g.nodes[A] == Node(A, ACTION, data(A))
    && g.Targets(T) == [D] && g.Targets(D) == [A]
  }

  /** Nodes without labels are known by their ids. */
  predicate Unlabelled(data: Data) {
    && data(T).GetString("label").None? && data(U).GetString("label").None? && data(D).GetString("label").None?
  }

  lemma PairTargets(g: Graph, nodes: seq<Node>, t: string, d: string, a: string)
    requires IsGraphOf(g, nodes, [Arrow(t, d), Arrow(d, a)]) && t != d
    ensures g.Targets(t) == [d] && g.Targets(d) == [a]
  {
    var x, y := Arrow(t, d), Arrow(d, a);
    GraphTargets(g, nodes, [x, y], t);
    GraphTargets(g, nodes, [x, y], d);
    TargetsInTwo(x, y, t);
    TargetsInTwo(x, y, d);
  }

  function PairSettings(payload: Value): map<string, Value> {
    map["_start_from_node" := String(T), "_trigger_context" := payload]
  }

  lemma PairGraph(data: Data, payload: Value, pair: Value) returns (g: Graph)
    requires pair == Pair(data, payload)
    ensures SnapshotGraph(pair) == Some(g) && PairShape(g, data)
  {
    var nodes, edges := PairNodes(data), [Arrow(T, D), Arrow(D, A)];
    SnapshotReadsBack(nodes, edges, PairSettings(payload), pair);
    g := SnapshotGraph(pair).value;
    FourNodes(g, nodes[0], nodes[1], nodes[2], nodes[3], edges);
    PairTargets(g, nodes, T, D, A);
  }

  lemma PairReads(data: Data, payload: Value, pair: Value)
    requires pair == Pair(data, payload)
    ensures StartsNamed(pair, T) && ResumeContext(pair) == map[] && pair.Get("_trigger_context") == Some(payload)
  {
    var nodes, edges := PairNodes(data), [Arrow(T, D), Arrow(D, A)];
    NewRunReads(nodes, edges, PairSettings(payload), pair, T);
    SettingReads(nodes, edges, PairSettings(payload), pair, "_trigger_context");
  }

  /** The named trigger takes the payload. */
  lemma PairSetsOut(host: Host, pair: Value, g: Graph, data: Data, payload: Value, order: seq<string>)
    requires StartsNamed(pair, T) && ResumeContext(pair) == map[] && pair.Get("_trigger_context") == Some(payload)
    requires Settled(pair, host.secrets)
    requires SnapshotGraph(pair) == Some(g) && PairShape(g, data) && Unlabelled(data) && IsOrder(order, g)
    ensures SetsOut(host, pair, g, order, [T], map[T := payload])
  {
    assert pair.GetString("_start_from_node") == Some(T);
    assert TriggerKey(pair, g, order) == T;
    assert map[][T := payload] == map[T := payload];
  }

  lemma RecordUnlabelled(host: Host, g: Graph, n: Node, ctx: Context, outputs: Value)
    requires n.data.GetString("label").None?
    ensures EnvOf(host, g).record(n, ctx, outputs) == ctx[n.id := outputs]
  {
  }

  lemma PairWalk(host: Host, g: Graph, data: Data, ctx: Context) returns (p: Progress)
    requires PairShape(g, data) && Unlabelled(data) && WaitsFrom(host, data, T) && ctx.Keys == {T}
    ensures Segment(EnvOf(host, g), g, [T], ctx) == (p, [])
    ensures HasRun(p, [T, D]) && p.stop == Some(PausedUntil(WaitsUntil(host, Node(D, DELAY, data(D))), [A]))
    ensures p.context.Keys == {T, D}
  {
    var env := EnvOf(host, g);
    AnsweringAdvances(host, g, T);
    WaitingSuspends(host, g, D);
    ReverseOne(D);
    assert [] + [D] == [D];
    var q;
    p, q := StartThenDelay(env, g, T, D, [], ctx, WaitsUntil(host, Node(D, DELAY, data(D))));
    RecordUnlabelled(host, g, g.nodes[T], ctx, env.exec(T, g.nodes[T], ctx).outputs);
    RecordUnlabelled(host, g, g.nodes[D], q.context, env.exec(D, g.nodes[D], q.context).outputs);
  }

  lemma FirstTriggerLeads(g: Graph, order: seq<string>)
    requires forall id :: id in order ==> id in g.nodes
    requires order != [] && g.nodes[order[0]].kind == TRIGGER
    ensures Triggers(g, order) != [] && Triggers(g, order)[0] == order[0]
  {
  }

  /** On resume the named start is not a trigger, so the payload goes to the first trigger in hash order. */
  lemma PayloadGoesToFirst(s: Value, g: Graph, order: seq<string>, a: string)
    requires forall id :: id in order ==> id in g.nodes
    requires order != [] && g.nodes[order[0]].kind == TRIGGER && PrimaryKey(g.nodes[order[0]]) == order[0]
    requires NamedStart(s) == [a] && a in g.nodes && g.nodes[a].kind == ACTION
    ensures TriggerKey(s, g, order) == order[0]
  {
    FirstTriggerLeads(g, order);
    assert s.GetString("_start_from_node") == Some(a);
  }

  lemma PayloadLands(s: Value, g: Graph, order: seq<string>, ctx: Context, payload: Value)
    requires forall id :: id in order ==> id in g.nodes
    requires ResumeContext(s) == ctx && s.Get("_trigger_context") == Some(payload)
    ensures InitialContext(s, g, order) == if TriggerKey(s, g, order) in ctx then ctx else ctx[TriggerKey(s, g, order) := payload]
  {
  }

  lemma PairResumes(
      host: Host, pair: Value, g: Graph, data: Data, payload: Value, ctx: Context, at: int, paused: Value,
      order: seq<string>, key: string)
    requires PairShape(g, data) && Unlabelled(data) && pair.Object? && pair.Get("_trigger_context") == Some(payload)
    requires paused == PausedSnapshot(host, pair, ctx, [A], at)
    requires IsOrder(order, g) && order != [] && order[0] == key && (key == T || key == U)
    ensures InitialContext(paused, g, order) == if key in ctx then ctx else ctx[key := payload]
  {
    PausedFields(host, pair, ctx, [A], at);
    PayloadGoesToFirst(paused, g, order, A);
    PayloadLands(paused, g, order, ctx, payload);
  }

  lemma PairKeys(ctx: Context, payload: Value)
    requires ctx.Keys == {T, D}
    ensures T in ctx && U !in ctx && ctx[U := payload] != ctx
  {
    assert T in ctx.Keys && U !in ctx.Keys;
    assert U in ctx[U := payload];
  }

  lemma PairPauses(host: Host, pair: Value, g: Graph, data: Data, payload: Value, order: seq<string>, at: int)
      returns (ctx: Context)
    requires StartsNamed(pair, T) && ResumeContext(pair) == map[] && pair.Get("_trigger_context") == Some(payload)
    requires Settled(pair, host.secrets) && Unlabelled(data) && WaitsFrom(host, data, T)
    requires SnapshotGraph(pair) == Some(g) && PairShape(g, data) && IsOrder(order, g)
    requires at == WaitsUntil(host, Node(D, DELAY, data(D)))
    ensures ctx.Keys == {T, D}
    ensures Leaves(host, pair, order, Paused, RanAll([T, D]) + [PauseWritten(PausedSnapshot(host, pair, ctx, [A], at), at)])
  {
    PairSetsOut(host, pair, g, data, payload, order);
    var p := PairWalk(host, g, data, map[T := payload]);
    Pauses(host, pair, g, order, [T], map[T := payload], p, [], [T, D], at, [A]);
    ctx := p.context;
  }

  /**
   With two triggers the resumed context depends on hash order: on any host that waits at the
   delay, what the pause writes is read back as the paused context when the first trigger in
   hash order is the one that started the run, and gains a key when it is the other.
   */
  lemma TwoTriggersCanGainAKey(
      host: Host, data: Data, payload: Value, pair: Value, order: seq<string>, tFirst: seq<string>, uFirst: seq<string>)
      returns (paused: Value, ctx: Context)
    requires pair == Pair(data, payload) && Settled(pair, host.secrets) && Unlabelled(data) && WaitsFrom(host, data, T)
    requires Enumerates(order, {T, U, D, A}) && Enumerates(tFirst, {T, U, D, A}) && Enumerates(uFirst, {T, U, D, A})
    requires tFirst != [] && uFirst != [] && tFirst[0] == T && uFirst[0] == U
    ensures Leaves(host, pair, order, Paused,
                   RanAll([T, D]) + [PauseWritten(paused, WaitsUntil(host, Node(D, DELAY, data(D))))])
    ensures ResumeContext(paused) == ctx
    ensures WellFormed(paused) && IsOrder(tFirst, SnapshotGraph(paused).value) && IsOrder(uFirst, SnapshotGraph(paused).value)
    ensures InitialContext(paused, SnapshotGraph(paused).value, tFirst) == ctx
    ensures InitialContext(paused, SnapshotGraph(paused).value, uFirst) == ctx[U := payload] != ctx
  {
    var g := PairGraph(data, payload, pair);
    PairReads(data, payload, pair);
    EnumeratesNodes(order, g);
    EnumeratesNodes(tFirst, g);
    EnumeratesNodes(uFirst, g);
    var at := WaitsUntil(host, Node(D, DELAY, data(D)));
    ctx := PairPauses(host, pair, g, data, payload, order, at);
    paused := PausedSnapshot(host, pair, ctx, [A], at);
    PausedKeepsGraph(host, pair, ctx, [A], at);
    PausedFields(host, pair, ctx, [A], at);
    PairResumes(host, pair, g, data, payload, ctx, at, paused, tFirst, T);
    PairResumes(host, pair, g, data, payload, ctx, at, paused, uFirst, U);
    PairKeys(ctx, payload);
  }
}
