/**
 What a run starts from, said through the fields of its snapshot
 (backend/src/engine/executor.rs:104-123, 193-233, 521-540).
 */
module RunStart {
  import opened JsonValues
  import opened Graphs
  import opened NodeExecution
  import opened Runs
  import opened NodeLaws

  // ---- The start list ----

  lemma {:induction false} TriggersAreDistinct(g: Graph, order: seq<string>)
    requires (forall id :: id in order ==> id in g.nodes) && forall i, j :: 0 <= i < j < |order| ==> order[i] != order[j]
    ensures forall i, j :: 0 <= i < j < |Triggers(g, order)| ==> Triggers(g, order)[i] != Triggers(g, order)[j]
  {
    if order != [] {
      TriggersAreDistinct(g, order[1..]);
      assert forall id :: id in Triggers(g, order[1..]) ==> id in order[1..];
      assert forall k :: 0 <= k < |order| - 1 ==> order[1..][k] == order[k + 1];
      assert order[0] !in order[1..];
    }
  }

  lemma UnnamedStart(s: Value, g: Graph, order: seq<string>)
    requires forall id :: id in order ==> id in g.nodes
    requires s.Object? && "_resume_from_nodes" !in s.fields && "_start_from_node" !in s.fields
    ensures StartList(s, g, order)
         == if Triggers(g, order) != [] then Triggers(g, order) else if order != [] then [order[0]] else []
  {
    assert s.GetArray("_resume_from_nodes").None? && NamedStart(s) == [];
  }

  lemma TriggersAreAll(g: Graph, order: seq<string>)
    requires IsOrder(order, g)
    ensures forall id :: id in Triggers(g, order) <==> id in g.nodes && g.nodes[id].kind == "trigger"
    ensures Triggers(g, order) == [] <==> forall id :: id in g.nodes ==> g.nodes[id].kind != "trigger"
  {
    if Triggers(g, order) != [] {
      assert Triggers(g, order)[0] in Triggers(g, order);
    }
  }

  /** A run that was never paused and names no start node starts at every trigger, or at some node if there is none. */
  lemma FreshRunStartsAtTriggers(s: Value, g: Graph, order: seq<string>)
    requires IsOrder(order, g)
    requires s.Object? && "_resume_from_nodes" !in s.fields && "_start_from_node" !in s.fields
    ensures
      var start := StartList(s, g, order);
      && (forall i, j :: 0 <= i < j < |start| ==> start[i] != start[j])
      && if exists id :: id in g.nodes && g.nodes[id].kind == "trigger"
         then forall id :: id in start <==> id in g.nodes && g.nodes[id].kind == "trigger"
         else start == if order == [] then [] else [order[0]]
  {
    TriggersAreDistinct(g, order);
    TriggersAreAll(g, order);
    UnnamedStart(s, g, order);
  }

  /** A run that was never paused starts at the node it names, whatever kind that has. */
  lemma NamedRunStartsThere(s: Value, g: Graph, order: seq<string>, id: string)
    requires IsOrder(order, g)
    requires s.Object? && "_resume_from_nodes" !in s.fields
    requires "_start_from_node" in s.fields && s.fields["_start_from_node"] == String(id)
    ensures StartList(s, g, order) == [id]
  {
  }

  lemma {:induction false} OnlyTextsCount(vs: seq<Value>, x: string)
    ensures x in Strings(vs) <==> String(x) in vs
    ensures |Strings(vs)| <= |vs|
  {
    if vs != [] {
      OnlyTextsCount(vs[1..], x);
      assert vs == [vs[0]] + vs[1..];
    }
  }

  /** A paused run starts at the texts among its saved ids. */
  lemma PausedRunStartsAtSaved(s: Value, g: Graph, order: seq<string>, vs: seq<Value>, x: string)
    requires IsOrder(order, g)
    requires s.Object? && "_resume_from_nodes" in s.fields && s.fields["_resume_from_nodes"] == Array(vs)
    requires String(x) in vs
    ensures forall y :: y in StartList(s, g, order) <==> String(y) in vs
  {
    forall y
      ensures y in Strings(vs) <==> String(y) in vs
    {
      OnlyTextsCount(vs, y);
    }
    assert x in Strings(vs);
  }

  // ---- The context ----

  /** This node of `order` is its first trigger. */
  predicate FirstTrigger(g: Graph, order: seq<string>, i: int)
    requires forall id :: id in order ==> id in g.nodes
  {
    && 0 <= i < |order| && g.nodes[order[i]].kind == "trigger"
    && forall j :: 0 <= j < i ==> g.nodes[order[j]].kind != "trigger"
  }

  lemma {:induction false} TriggersStartWithFirst(g: Graph, order: seq<string>, i: int)
    requires (forall id :: id in order ==> id in g.nodes) && FirstTrigger(g, order, i)
    ensures Triggers(g, order) != [] && Triggers(g, order)[0] == order[i]
  {
    if i > 0 {
      TriggersStartWithFirst(g, order[1..], i - 1);
    }
  }

  /** The snapshot names a trigger to start from. */
  predicate NamesTrigger(s: Value, g: Graph, id: string) {
    && s.Object? && "_start_from_node" in s.fields && s.fields["_start_from_node"] == String(id)
    && id in g.nodes && g.nodes[id].kind == "trigger"
  }

  /** What the run brings along from its last pause. */
  function Brought(s: Value): Context {
    if s.Object? && "_resume_context" in s.fields && s.fields["_resume_context"].Object? then s.fields["_resume_context"].fields
    else map[]
  }

  /** The payload goes under the key of the named trigger, unless the run already has that key. */
  lemma PayloadGoesToNamedTrigger(s: Value, g: Graph, order: seq<string>, id: string, key: string)
    requires IsOrder(order, g) && NamesTrigger(s, g, id) && StoredUnder(g.nodes[id], key)
    requires "_trigger_context" in s.fields
    ensures InitialContext(s, g, order)
         == if key in Brought(s) then Brought(s) else Brought(s)[key := s.fields["_trigger_context"]]
  {
    StoredUnderPrimaryKey(g.nodes[id], key);
  }

  /** Without a named trigger it goes under the key of the first trigger there is. */
  lemma PayloadGoesToFirstTrigger(s: Value, g: Graph, order: seq<string>, i: int, key: string)
    requires IsOrder(order, g) && s.Object? && "_trigger_context" in s.fields
    requires (forall id :: !NamesTrigger(s, g, id)) && FirstTrigger(g, order, i) && StoredUnder(g.nodes[order[i]], key)
    ensures InitialContext(s, g, order)
         == if key in Brought(s) then Brought(s) else Brought(s)[key := s.fields["_trigger_context"]]
  {
    TriggersStartWithFirst(g, order, i);
    StoredUnderPrimaryKey(g.nodes[order[i]], key);
    NamesNone(s, g);
  }

  lemma NamesNone(s: Value, g: Graph)
    requires forall id :: !NamesTrigger(s, g, id)
    ensures
      var named := s.GetString("_start_from_node");
      named.Some? && named.value in g.nodes ==> g.nodes[named.value].kind != "trigger"
  {
    var named := s.GetString("_start_from_node");
    if named.Some? {
      assert !NamesTrigger(s, g, named.value);
    }
  }

  /** With no trigger at all it goes under "trigger"; without a payload nothing is added. */
  lemma PayloadWithoutTrigger(s: Value, g: Graph, order: seq<string>)
    requires IsOrder(order, g)
    requires s.Object? ==> "_trigger_context" in s.fields ==> forall id :: id in g.nodes ==> g.nodes[id].kind != "trigger"
    ensures InitialContext(s, g, order)
         == if !s.Object? || "_trigger_context" !in s.fields || "trigger" in Brought(s) then Brought(s)
            else Brought(s)["trigger" := s.fields["_trigger_context"]]
  {
    if Triggers(g, order) != [] {
      assert Triggers(g, order)[0] in Triggers(g, order);
    }
  }

  /** A pause writes the resume time as text, and leaves all else alone but the context and the saved nodes. */
  lemma PauseKeepsTheRest(host: Host, s: Value, ctx: Context, next: seq<string>, at: int, key: string)
    requires s.Object?
    ensures
      var paused := PausedSnapshot(host, s, ctx, next, at);
      && paused.Object? && "_resume_at" in paused.fields && paused.fields["_resume_at"] == String(host.stamp(at))
      && (key !in {"_resume_context", "_resume_from_nodes", "_start_from_node", "_resume_at"} ==>
            (key in paused.fields <==> key in s.fields) && (key in s.fields ==> paused.fields[key] == s.fields[key]))
  {
  }
}
