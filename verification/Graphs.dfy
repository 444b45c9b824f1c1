/**
 The workflow graph parsed from a run's snapshot (backend/src/engine/graph.rs).
 Duplicate node ids keep the last node, edges may be duplicated and may point
 at nodes that do not exist.
 */
module Graphs {
  import opened Wrappers
  import opened JsonValues

  datatype Node = Node(id: string, kind: string, data: Value)

  datatype Edge = Edge(id: string, source: string, target: string, sourceHandle: Option<string>)

  datatype Graph = Graph(nodes: map<string, Node>, edgesOut: map<string, seq<Edge>>) {

    /** The edges leaving a node, in the order the snapshot lists them. */
    function Outgoing(id: string): seq<Edge> {
      if id in edgesOut then edgesOut[id] else []
    }

    function Targets(id: string): seq<string> {
      var out := Outgoing(id);
      seq(|out|, i requires 0 <= i < |out| => out[i].target)
    }

    /** Every node is stored under its own id. */
    ghost predicate Keyed() {
      forall id :: id in nodes ==> nodes[id].id == id
    }
  }

  // ---- What the snapshot says, entry by entry ----

  predicate NodeShaped(v: Value) {
    v.GetString("id").Some? && v.GetString("type").Some?
  }

  function NodeOf(v: Value): Node
    requires NodeShaped(v)
  {
    var data := match v.Get("data") case Some(d) => d case None => Null;
    Node(v.GetString("id").value, v.GetString("type").value, data)
  }

  predicate EdgeShaped(v: Value) {
    v.GetString("source").Some? && v.GetString("target").Some?
  }

  function EdgeOf(v: Value): Edge
    requires EdgeShaped(v)
  {
    var id := match v.GetString("id") case Some(s) => s case None => "";
    Edge(id, v.GetString("source").value, v.GetString("target").value, v.GetString("sourceHandle"))
  }

  /** The snapshot parses: both arrays are there and every entry has its mandatory strings. */
  ghost predicate WellFormed(snapshot: Value) {
    && snapshot.GetArray("nodes").Some?
    && snapshot.GetArray("edges").Some?
    && (forall v :: v in snapshot.GetArray("nodes").value ==> NodeShaped(v))
    && (forall v :: v in snapshot.GetArray("edges").value ==> EdgeShaped(v))
  }

  /** The snapshot's edge list. */
  function EdgeList(vs: seq<Value>): (es: seq<Edge>)
    requires forall v :: v in vs ==> EdgeShaped(v)
    ensures |es| == |vs|
  {
    seq(|vs|, i requires 0 <= i < |vs| => EdgeOf(vs[i]))
  }

  /** The edges with the given source, in list order. */
  function FilterBySource(es: seq<Edge>, source: string): seq<Edge> {
    if es == [] then []
    else
      var last := es[|es| - 1];
      FilterBySource(es[..|es| - 1], source) + (if last.source == source then [last] else [])
  }

  lemma {:induction false} FilterMembers(es: seq<Edge>, source: string)
    ensures forall e :: e in FilterBySource(es, source) <==> e in es && e.source == source
  {
    if es != [] {
      FilterMembers(es[..|es| - 1], source);
      assert es == es[..|es| - 1] + [es[|es| - 1]];
    }
  }

  /** The nodes by id; the last entry with an id wins. */
  function NodesById(vs: seq<Value>): (m: map<string, Node>)
    requires forall v :: v in vs ==> NodeShaped(v)
    ensures forall id :: id in m ==> m[id].id == id
    ensures forall id :: id in m <==> exists v :: v in vs && NodeOf(v).id == id
  {
    if vs == [] then map[]
    else
      var node := NodeOf(vs[|vs| - 1]);
      assert vs == vs[..|vs| - 1] + [vs[|vs| - 1]];
      NodesById(vs[..|vs| - 1])[node.id := node]
  }

  /** The graph of a well-formed snapshot. */
  function GraphOf(nodes: seq<Value>, edges: seq<Value>): Graph
    requires forall v :: v in nodes ==> NodeShaped(v)
    requires forall v :: v in edges ==> EdgeShaped(v)
  {
    var es := EdgeList(edges);
    Graph(NodesById(nodes), EdgeIndex(es))
  }

  function EdgeIndex(es: seq<Edge>): map<string, seq<Edge>> {
    map s | s in Sources(es) :: FilterBySource(es, s)
  }

  function Sources(es: seq<Edge>): set<string> {
    set e | e in es :: e.source
  }

  ghost function SnapshotGraph(snapshot: Value): (g: Option<Graph>)
    ensures g.Some? <==> WellFormed(snapshot)
    ensures g.Some? ==> g.value.Keyed()
  {
    if WellFormed(snapshot)
    then Some(GraphOf(snapshot.GetArray("nodes").value, snapshot.GetArray("edges").value))
    else None
  }

  // ---- The parser ----

  /** Parses a snapshot, giving up at the first malformed entry. */
  method FromSnapshot(snapshot: Value) returns (g: Option<Graph>)
    ensures g == SnapshotGraph(snapshot)
  {
    var nodesVal := snapshot.GetArray("nodes");
    if nodesVal.None? { return None; }
    var edgesVal := snapshot.GetArray("edges");
    if edgesVal.None? { return None; }
    var nodes := FillNodes(nodesVal.value);
    if nodes.None? { return None; }
    var edgesOut := FillEdges(edgesVal.value);
    if edgesOut.None? { return None; }
    return Some(Graph(nodes.value, edgesOut.value));
  }

  /** The first hash map: nodes by id. */
  method FillNodes(vs: seq<Value>) returns (r: Option<map<string, Node>>)
    ensures r.Some? <==> forall v :: v in vs ==> NodeShaped(v)
    ensures r.Some? ==> r.value == NodesById(vs)
  {
    var nodes: map<string, Node> := map[];
    for i := 0 to |vs|
      invariant forall v :: v in vs[..i] ==> NodeShaped(v)
      invariant nodes == NodesById(vs[..i])
    {
      if !NodeShaped(vs[i]) { return None; }
      var node := NodeOf(vs[i]);
      nodes := nodes[node.id := node];
      assert vs[..i + 1][..i] == vs[..i];
    }
    assert vs[..|vs|] == vs;
    return Some(nodes);
  }

  /** The second hash map: edges grouped by source, each group in list order. */
  method FillEdges(vs: seq<Value>) returns (r: Option<map<string, seq<Edge>>>)
    ensures r.Some? <==> forall v :: v in vs ==> EdgeShaped(v)
    ensures r.Some? ==> r.value == EdgeIndex(EdgeList(vs))
  {
    var edgesOut: map<string, seq<Edge>> := map[];
    for i := 0 to |vs|
      invariant forall v :: v in vs[..i] ==> EdgeShaped(v)
      invariant edgesOut == EdgeIndex(EdgeList(vs[..i]))
    {
      if !EdgeShaped(vs[i]) { return None; }
      var edge := EdgeOf(vs[i]);
      EdgeStep(vs, i);
      var bucket := if edge.source in edgesOut then edgesOut[edge.source] else [];
      edgesOut := edgesOut[edge.source := bucket + [edge]];
    }
    assert vs[..|vs|] == vs;
    return Some(edgesOut);
  }

  function Pushed(index: map<string, seq<Edge>>, edge: Edge): map<string, seq<Edge>> {
    index[edge.source := (if edge.source in index then index[edge.source] else []) + [edge]]
  }

  /** One more edge of the list. */
  lemma EdgeStep(vs: seq<Value>, i: nat)
    requires i < |vs| && EdgeShaped(vs[i]) && forall v :: v in vs[..i] ==> EdgeShaped(v)
    ensures forall v :: v in vs[..i + 1] ==> EdgeShaped(v)
    ensures EdgeIndex(EdgeList(vs[..i + 1])) == Pushed(EdgeIndex(EdgeList(vs[..i])), EdgeOf(vs[i]))
  {
    assert vs[..i + 1] == vs[..i] + [vs[i]];
    assert EdgeList(vs[..i + 1]) == EdgeList(vs[..i]) + [EdgeOf(vs[i])];
    IndexPush(EdgeList(vs[..i]), EdgeOf(vs[i]));
  }

  /** Appending an edge to its bucket keeps the index in step with the list. */
  lemma IndexPush(es: seq<Edge>, edge: Edge)
    ensures EdgeIndex(es + [edge]) == Pushed(EdgeIndex(es), edge)
  {
    var index, all := EdgeIndex(es), es + [edge];
    SourcesPush(es, edge);
    if edge.source !in Sources(es) {
      NoSourceNoEdges(es, edge.source);
    }
    var pushed := Pushed(index, edge);
    assert EdgeIndex(all).Keys == pushed.Keys;
    forall s | s in pushed
      ensures EdgeIndex(all)[s] == pushed[s]
    {
      FilterPush(es, edge, s);
    }
  }

  lemma SourcesPush(es: seq<Edge>, edge: Edge)
    ensures Sources(es + [edge]) == Sources(es) + {edge.source}
  {
  }

  lemma FilterPush(es: seq<Edge>, edge: Edge, source: string)
    ensures FilterBySource(es + [edge], source)
         == FilterBySource(es, source) + (if edge.source == source then [edge] else [])
  {
  }

  lemma NoSourceNoEdges(es: seq<Edge>, source: string)
    requires source !in Sources(es)
    ensures FilterBySource(es, source) == []
  {
  }

  // ---- What callers rely on ----

  /** Node entries need "id" and "type", edge entries "source" and "target"; the rest is optional. */
  lemma EntriesMean(fields: map<string, Value>, a: string, b: string)
    ensures
      var v := Object(fields);
      "id" in fields && fields["id"] == String(a) && "type" in fields && fields["type"] == String(b) ==>
        NodeShaped(v) && NodeOf(v) == Node(a, b, if "data" in fields then fields["data"] else Null)
    ensures
      var v := Object(fields);
      "source" in fields && fields["source"] == String(a) && "target" in fields && fields["target"] == String(b) ==>
        EdgeShaped(v) && EdgeOf(v) == Edge(
          if "id" in fields && fields["id"].String? then fields["id"].str else "", a, b,
          if "sourceHandle" in fields && fields["sourceHandle"].String? then Some(fields["sourceHandle"].str) else None)
  {
  }

  /** `outgoing` is the order-preserving filter of the snapshot's whole edge list, present or not. */
  lemma OutgoingIsFilter(snapshot: Value, id: string)
    requires WellFormed(snapshot)
    ensures SnapshotGraph(snapshot).value.Outgoing(id)
         == FilterBySource(EdgeList(snapshot.GetArray("edges").value), id)
  {
    var es := EdgeList(snapshot.GetArray("edges").value);
    if id !in Sources(es) {
      NoSourceNoEdges(es, id);
    }
  }

  /** Two snapshots that agree on "nodes" and "edges" denote the same graph. */
  lemma GraphIgnoresOtherKeys(a: Value, b: Value)
    requires a.Get("nodes") == b.Get("nodes") && a.Get("edges") == b.Get("edges")
    ensures SnapshotGraph(a) == SnapshotGraph(b)
  {
  }

  /** When ids repeat, the last node entry with an id is the one kept. */
  lemma {:induction false} LastNodeWins(vs: seq<Value>, i: nat)
    requires forall v :: v in vs ==> NodeShaped(v)
    requires i < |vs| && forall j :: i < j < |vs| ==> NodeOf(vs[j]).id != NodeOf(vs[i]).id
    ensures NodeOf(vs[i]).id in NodesById(vs) && NodesById(vs)[NodeOf(vs[i]).id] == NodeOf(vs[i])
  {
    if i < |vs| - 1 {
      LastNodeWins(vs[..|vs| - 1], i);
    }
  }
}
