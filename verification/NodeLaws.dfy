/**
 What the nodes of a run do, said through the answers of the code behind them and the edges of
 the snapshot (backend/src/engine/executor.rs:282-318, 385-492, 557-600, 614-719).
 */
module NodeLaws {
  import opened Wrappers
  import opened JsonValues
  import opened Graphs
  import opened NodeExecution
  import opened Executor
  import opened Walks
  import opened Runs
  import Text

  /** An entry of the walk a snapshot asks for. */
  ghost predicate EntryOf(host: Host, snapshot: Value, g: Graph, order: seq<string>, e: Entry) {
    && SnapshotGraph(snapshot) == Some(g) && IsOrder(order, g)
    && e in Walk(host, snapshot, order).0.trace
  }

  lemma EntryRan(host: Host, snapshot: Value, g: Graph, order: seq<string>, e: Entry)
    requires EntryOf(host, snapshot, g, order, e)
    ensures e.id in g.nodes && e.node == g.nodes[e.id] && e.node.id == e.id
    ensures Did(host.handlers, g, e)
  {
    SegmentInv(EnvOf(host, g), g, StartList(snapshot, g, order), InitialContext(snapshot, g, order));
  }

  // ---- Which successors ----

  /** `next` are the targets of all edges, in their order. */
  predicate AllTargets(es: seq<Edge>, next: seq<string>) {
    |next| == |es| && forall i :: 0 <= i < |es| ==> next[i] == es[i].target
  }

  predicate Increasing(at: seq<int>) {
    forall i, j :: 0 <= i < j < |at| ==> at[i] < at[j]
  }

  /** The positions of `at` hold edges with this handle, whose targets are `next`. */
  predicate Hits(es: seq<Edge>, handle: string, next: seq<string>, at: seq<int>) {
    |at| == |next| && forall i :: 0 <= i < |at| ==>
      0 <= at[i] < |es| && es[at[i]].sourceHandle == Some(handle) && next[i] == es[at[i]].target
  }

  predicate HitsAll(es: seq<Edge>, handle: string, at: seq<int>) {
    forall k :: 0 <= k < |es| && es[k].sourceHandle == Some(handle) ==> k in at
  }

  /** `next` are the targets of all edges with this handle, in their order. */
  ghost predicate Picks(es: seq<Edge>, handle: string, next: seq<string>) {
    exists at: seq<int> :: Increasing(at) && Hits(es, handle, next, at) && HitsAll(es, handle, at)
  }

  function Moved(at: seq<int>): (r: seq<int>)
    ensures |r| == |at| && forall i :: 0 <= i < |at| ==> r[i] == at[i] + 1
  {
    seq(|at|, i requires 0 <= i < |at| => at[i] + 1)
  }

  lemma HitsMoved(e: Edge, es: seq<Edge>, handle: string, next: seq<string>, at: seq<int>)
    requires Hits(es, handle, next, at)
    ensures Hits([e] + es, handle, next, Moved(at))
  {
    var all := [e] + es;
    forall i | 0 <= i < |at|
      ensures all[Moved(at)[i]] == es[at[i]] && 0 <= Moved(at)[i] < |all|
    {
    }
  }

  lemma HitsFirst(e: Edge, es: seq<Edge>, handle: string, next: seq<string>, at: seq<int>)
    requires Hits([e] + es, handle, next, at) && e.sourceHandle == Some(handle)
    ensures Hits([e] + es, handle, [e.target] + next, [0] + at)
  {
  }

  lemma MovedIn(at: seq<int>, k: int)
    requires k - 1 in at
    ensures k in Moved(at)
  {
    var i :| 0 <= i < |at| && at[i] == k - 1;
    assert Moved(at)[i] == k;
  }

  lemma HitsAllMoved(e: Edge, es: seq<Edge>, handle: string, at: seq<int>, at': seq<int>)
    requires HitsAll(es, handle, at) && (forall k :: k in Moved(at) ==> k in at')
    requires e.sourceHandle == Some(handle) ==> 0 in at'
    ensures HitsAll([e] + es, handle, at')
  {
    var all := [e] + es;
    forall k | 0 <= k < |all| && all[k].sourceHandle == Some(handle)
      ensures k in at'
    {
      if k > 0 {
        assert all[k] == es[k - 1];
        MovedIn(at, k);
      }
    }
  }

  lemma PicksCons(e: Edge, es: seq<Edge>, handle: string, next: seq<string>)
    requires Picks(es, handle, next)
    ensures Picks([e] + es, handle, if e.sourceHandle == Some(handle) then [e.target] + next else next)
  {
    var at :| Increasing(at) && Hits(es, handle, next, at) && HitsAll(es, handle, at);
    HitsMoved(e, es, handle, next, at);
    if e.sourceHandle == Some(handle) {
      var at' := [0] + Moved(at);
      HitsFirst(e, es, handle, next, Moved(at));
      HitsAllMoved(e, es, handle, at, at');
      IncreasingMoved(es, handle, next, at);
      assert Increasing(at') && Hits([e] + es, handle, [e.target] + next, at') && HitsAll([e] + es, handle, at');
    } else {
      HitsAllMoved(e, es, handle, at, Moved(at));
      assert Increasing(Moved(at)) && Hits([e] + es, handle, next, Moved(at)) && HitsAll([e] + es, handle, Moved(at));
    }
  }

  lemma IncreasingMoved(es: seq<Edge>, handle: string, next: seq<string>, at: seq<int>)
    requires Increasing(at) && Hits(es, handle, next, at)
    ensures Increasing([0] + Moved(at))
  {
    var at' := [0] + Moved(at);
    forall i, j | 0 <= i < j < |at'|
      ensures at'[i] < at'[j]
    {
      assert at'[j] == at[j - 1] + 1;
      if i > 0 { assert at'[i] == at[i - 1] + 1; }
    }
  }

  lemma {:induction false} HandlePicks(es: seq<Edge>, handle: string)
    ensures Picks(es, handle, TargetsByHandle(es, handle))
  {
    if es == [] {
      assert Increasing([]) && Hits(es, handle, [], []) && HitsAll(es, handle, []);
    } else {
      var e, rest := es[0], es[1..];
      HandlePicks(rest, handle);
      assert es == [e] + rest;
      assert [] + TargetsByHandle(rest, handle) == TargetsByHandle(rest, handle);
      PicksCons(e, rest, handle, TargetsByHandle(rest, handle));
    }
  }

  lemma HitHasHandle(es: seq<Edge>, handle: string, next: seq<string>, at: seq<int>, i: nat)
    requires Hits(es, handle, next, at) && i < |next|
    ensures exists edge :: edge in es && edge.target == next[i] && edge.sourceHandle == Some(handle)
  {
    var edge := es[at[i]];
    assert edge in es && edge.target == next[i] && edge.sourceHandle == Some(handle);
  }

  lemma HandleIsHit(es: seq<Edge>, handle: string, next: seq<string>, at: seq<int>, edge: Edge)
    requires Hits(es, handle, next, at) && HitsAll(es, handle, at) && edge in es && edge.sourceHandle == Some(handle)
    ensures edge.target in next
  {
    var k :| 0 <= k < |es| && es[k] == edge;
    var i :| 0 <= i < |at| && at[i] == k;
    assert next[i] == edge.target;
  }

  // ---- What each kind of node does ----

  /** Kinds whose node waits or goes on by its configuration. */
  predicate Delays(kind: string) {
    kind in {"delay", "logicDelay", "wait"}
  }

  /** Kinds whose handler is asked. */
  predicate Asked(kind: string) {
    kind in {"formatter", "logicformatter", "transform", "trigger", "condition"} || (|kind| >= 6 && kind[..6] == "action")
  }

  /** A Boolean under "result". */
  predicate Decides(outputs: Value, side: bool) {
    outputs.Object? && "result" in outputs.fields && outputs.fields["result"] == Bool(side)
  }

  lemma ActionKinds(kind: string)
    ensures "action" <= kind <==> |kind| >= 6 && kind[..6] == "action"
  {
    if |kind| >= 6 && kind[..6] == "action" {
      assert forall i :: 0 <= i < 6 ==> kind[i] == kind[..6][i];
    }
  }

  lemma DelaysAreNotAsked(kind: string)
    requires Delays(kind)
    ensures !Asked(kind)
  {
    assert kind[0] == 'd' || kind[0] == 'l' || kind[0] == 'w';
    if |kind| >= 6 {
      assert kind[..6][0] == kind[0] && "action"[0] == 'a';
    }
  }

  lemma AskedHasHandler(kind: string)
    ensures Asked(kind) <==> HasHandler(kind) && !IsDelay(kind)
    ensures Delays(kind) <==> IsDelay(kind)
  {
    ActionKinds(kind);
    if Delays(kind) {
      DelaysAreNotAsked(kind);
    }
  }

  /** What executing this entry's node gives. */
  ghost predicate Did(h: Handlers, g: Graph, e: Entry) {
    e.outcome == Execute(h, g, e.id, e.node, e.before)
  }

  lemma AskedRan(h: Handlers, g: Graph, e: Entry)
    requires Did(h, g, e) && Asked(e.node.kind)
    ensures match h.handler(e.node, e.before)
            case Outputs(o, selected) => e.outcome == Advanced(o, ResolveNext(g, e.id, e.node.kind, o, selected))
            case HandlerError(message) => e.outcome == OnError(g, e.id, e.node, message)
  {
    AskedHasHandler(e.node.kind);
  }

  lemma DelayRan(h: Handlers, g: Graph, e: Entry)
    requires Did(h, g, e) && Delays(e.node.kind)
    ensures match h.delay(e.node)
            case NoWait(o) => e.outcome == Advanced(o, g.Targets(e.id))
            case Wait(o, at) => e.outcome == Suspended(o, at, g.Targets(e.id))
            case DelayError(message) => e.outcome == OnError(g, e.id, e.node, message)
  {
    AskedHasHandler(e.node.kind);
  }

  lemma OtherRan(h: Handlers, g: Graph, e: Entry)
    requires Did(h, g, e) && !Delays(e.node.kind) && !Asked(e.node.kind)
    ensures e.outcome == Advanced(Object(map["skipped" := Bool(true)]), g.Targets(e.id))
  {
    AskedHasHandler(e.node.kind);
  }

  lemma TargetsAreAll(g: Graph, id: string)
    ensures AllTargets(g.Outgoing(id), g.Targets(id))
  {
  }

  lemma ResolvesToAll(g: Graph, id: string, kind: string, o: Value, selected: Option<string>)
    requires selected.Some? ==> selected.value !in g.nodes
    requires kind == "condition" ==> !Decides(o, true) && !Decides(o, false)
    ensures AllTargets(g.Outgoing(id), ResolveNext(g, id, kind, o, selected))
  {
    TargetsAreAll(g, id);
  }

  lemma ResolvesToSide(g: Graph, id: string, o: Value, selected: Option<string>, side: bool)
    requires selected.Some? ==> selected.value !in g.nodes
    requires Decides(o, side)
    ensures Picks(g.Outgoing(id), if side then "cond-true" else "cond-false", ResolveNext(g, id, "condition", o, selected))
  {
    HandlePicks(g.Outgoing(id), if side then "cond-true" else "cond-false");
  }

  /** A condition with a Boolean result leads to the targets of that side, in order, and to nothing else. */
  lemma ConditionTakesItsSide(
      host: Host, snapshot: Value, g: Graph, order: seq<string>, e: Entry, o: Value, selected: Option<string>, side: bool)
    requires EntryOf(host, snapshot, g, order, e) && e.node.kind == "condition"
    requires host.handlers.handler(e.node, e.before) == Outputs(o, selected) && Decides(o, side)
    requires selected.Some? ==> selected.value !in g.nodes
    ensures e.outcome.Advanced? && e.outcome.outputs == o
    ensures Picks(g.Outgoing(e.id), if side then "cond-true" else "cond-false", e.outcome.next)
    ensures forall t :: t in e.outcome.next <==>
              exists edge :: edge in g.Outgoing(e.id) && edge.target == t
                             && edge.sourceHandle == Some(if side then "cond-true" else "cond-false")
  {
    EntryRan(host, snapshot, g, order, e);
    ConditionRan(host.handlers, g, e, o, selected, side);
  }

  lemma ConditionRan(h: Handlers, g: Graph, e: Entry, o: Value, selected: Option<string>, side: bool)
    requires Did(h, g, e) && e.node.kind == "condition"
    requires h.handler(e.node, e.before) == Outputs(o, selected) && Decides(o, side)
    requires selected.Some? ==> selected.value !in g.nodes
    ensures e.outcome.Advanced? && e.outcome.outputs == o
    ensures Picks(g.Outgoing(e.id), if side then "cond-true" else "cond-false", e.outcome.next)
    ensures forall t :: t in e.outcome.next <==>
              exists edge :: edge in g.Outgoing(e.id) && edge.target == t
                             && edge.sourceHandle == Some(if side then "cond-true" else "cond-false")
  {
    AskedRan(h, g, e);
    ResolvesToSide(g, e.id, o, selected, side);
    PickedExactly(g.Outgoing(e.id), if side then "cond-true" else "cond-false", e.outcome.next);
  }

  lemma PickedExactly(es: seq<Edge>, handle: string, next: seq<string>)
    requires Picks(es, handle, next)
    ensures forall t :: t in next <==> exists edge :: edge in es && edge.target == t && edge.sourceHandle == Some(handle)
  {
    var at :| Increasing(at) && Hits(es, handle, next, at) && HitsAll(es, handle, at);
    forall t | t in next
      ensures exists edge :: edge in es && edge.target == t && edge.sourceHandle == Some(handle)
    {
      var i :| 0 <= i < |next| && next[i] == t;
      HitHasHandle(es, handle, next, at, i);
    }
    forall edge | edge in es && edge.sourceHandle == Some(handle)
      ensures edge.target in next
    {
      HandleIsHit(es, handle, next, at, edge);
    }
  }

  /** A node that is asked passes its answer on: to the node it selects, if that exists, and else to all targets. */
  lemma AnswerIsPassedOn(
      host: Host, snapshot: Value, g: Graph, order: seq<string>, e: Entry, o: Value, selected: Option<string>)
    requires EntryOf(host, snapshot, g, order, e) && Asked(e.node.kind)
    requires host.handlers.handler(e.node, e.before) == Outputs(o, selected)
    ensures e.outcome.Advanced? && e.outcome.outputs == o
    ensures selected.Some? && selected.value in g.nodes ==> e.outcome.next == [selected.value]
    ensures (selected.Some? ==> selected.value !in g.nodes) && (e.node.kind == "condition" ==> !Decides(o, true) && !Decides(o, false))
            ==> AllTargets(g.Outgoing(e.id), e.outcome.next)
  {
    EntryRan(host, snapshot, g, order, e);
    AnswerRan(host.handlers, g, e, o, selected);
  }

  lemma AnswerRan(h: Handlers, g: Graph, e: Entry, o: Value, selected: Option<string>)
    requires Did(h, g, e) && Asked(e.node.kind)
    requires h.handler(e.node, e.before) == Outputs(o, selected)
    ensures e.outcome.Advanced? && e.outcome.outputs == o
    ensures selected.Some? && selected.value in g.nodes ==> e.outcome.next == [selected.value]
    ensures (selected.Some? ==> selected.value !in g.nodes) && (e.node.kind == "condition" ==> !Decides(o, true) && !Decides(o, false))
            ==> AllTargets(g.Outgoing(e.id), e.outcome.next)
  {
    AskedRan(h, g, e);
    if (selected.Some? ==> selected.value !in g.nodes) && (e.node.kind == "condition" ==> !Decides(o, true) && !Decides(o, false)) {
      ResolvesToAll(g, e.id, e.node.kind, o, selected);
    }
  }

  /** A delay node that does not wait goes on to all targets; one that waits saves them. */
  lemma DelayWaitsAsPlanned(host: Host, snapshot: Value, g: Graph, order: seq<string>, e: Entry)
    requires EntryOf(host, snapshot, g, order, e) && Delays(e.node.kind)
    ensures match host.handlers.delay(e.node)
            case NoWait(o) => e.outcome.Advanced? && e.outcome.outputs == o && AllTargets(g.Outgoing(e.id), e.outcome.next)
            case Wait(o, at) =>
              && e.outcome.Suspended? && e.outcome.outputs == o && e.outcome.resumeAt == at
              && AllTargets(g.Outgoing(e.id), e.outcome.next)
            case DelayError(_) => e.outcome.Tolerated? || e.outcome.Fatal?
  {
    EntryRan(host, snapshot, g, order, e);
    WaitRan(host.handlers, g, e);
  }

  lemma WaitRan(h: Handlers, g: Graph, e: Entry)
    requires Did(h, g, e) && Delays(e.node.kind)
    ensures match h.delay(e.node)
            case NoWait(o) => e.outcome.Advanced? && e.outcome.outputs == o && AllTargets(g.Outgoing(e.id), e.outcome.next)
            case Wait(o, at) =>
              && e.outcome.Suspended? && e.outcome.outputs == o && e.outcome.resumeAt == at
              && AllTargets(g.Outgoing(e.id), e.outcome.next)
            case DelayError(_) => e.outcome.Tolerated? || e.outcome.Fatal?
  {
    DelayRan(h, g, e);
    TargetsAreAll(g, e.id);
  }

  /** Any other node is skipped, and leads to all targets. */
  lemma OtherKindsAreSkipped(host: Host, snapshot: Value, g: Graph, order: seq<string>, e: Entry)
    requires EntryOf(host, snapshot, g, order, e) && !Delays(e.node.kind) && !Asked(e.node.kind)
    ensures e.outcome.Advanced? && e.outcome.outputs == Object(map["skipped" := Bool(true)])
    ensures AllTargets(g.Outgoing(e.id), e.outcome.next)
  {
    EntryRan(host, snapshot, g, order, e);
    OtherRan(host.handlers, g, e);
    TargetsAreAll(g, e.id);
  }

  /** The node's own code reported this error. */
  predicate Reports(h: Handlers, e: Entry, message: string) {
    || (Delays(e.node.kind) && h.delay(e.node) == DelayError(message))
    || (Asked(e.node.kind) && h.handler(e.node, e.before) == HandlerError(message))
  }

  /** The node may fail: its kind is exactly "action" and it says so. */
  predicate MayFail(n: Node) {
    && n.kind == "action"
    && n.data.Object? && "stopOnError" in n.data.fields && n.data.fields["stopOnError"] == Bool(false)
  }

  lemma OnErrorDecides(g: Graph, id: string, node: Node, message: string)
    ensures OnError(g, id, node, message) == if MayFail(node) then Tolerated(message, g.Targets(id)) else Fatal(message)
  {
  }

  /** An error ends the run with its message, unless the node may fail; then all its targets follow. */
  lemma ErrorsStopOrPass(host: Host, snapshot: Value, g: Graph, order: seq<string>, e: Entry, message: string)
    requires EntryOf(host, snapshot, g, order, e) && Reports(host.handlers, e, message)
    ensures if MayFail(e.node)
            then e.outcome.Tolerated? && e.outcome.message == message && AllTargets(g.Outgoing(e.id), e.outcome.next)
            else e.outcome == Fatal(message)
  {
    EntryRan(host, snapshot, g, order, e);
    ErrorRan(host.handlers, g, e, message);
  }

  lemma ErrorRan(h: Handlers, g: Graph, e: Entry, message: string)
    requires Did(h, g, e) && Reports(h, e, message)
    ensures if MayFail(e.node)
            then e.outcome.Tolerated? && e.outcome.message == message && AllTargets(g.Outgoing(e.id), e.outcome.next)
            else e.outcome == Fatal(message)
  {
    if Delays(e.node.kind) && h.delay(e.node) == DelayError(message) {
      DelayRan(h, g, e);
    } else {
      AskedRan(h, g, e);
    }
    OnErrorDecides(g, e.id, e.node, message);
    TargetsAreAll(g, e.id);
  }

  /** No node fails without reporting an error, and only delays wait. */
  lemma NothingElseFails(host: Host, snapshot: Value, g: Graph, order: seq<string>, e: Entry)
    requires EntryOf(host, snapshot, g, order, e)
    ensures e.outcome.Tolerated? || e.outcome.Fatal? ==> Reports(host.handlers, e, e.outcome.message)
    ensures e.outcome.Suspended? ==> Delays(e.node.kind)
  {
    EntryRan(host, snapshot, g, order, e);
    FailureRan(host.handlers, g, e);
  }

  lemma FailureRan(h: Handlers, g: Graph, e: Entry)
    requires Did(h, g, e)
    ensures e.outcome.Tolerated? || e.outcome.Fatal? ==> Reports(h, e, e.outcome.message)
    ensures e.outcome.Suspended? ==> Delays(e.node.kind)
  {
    if Delays(e.node.kind) {
      DelayRan(h, g, e);
      if h.delay(e.node).DelayError? { OnErrorDecides(g, e.id, e.node, h.delay(e.node).message); }
    } else if Asked(e.node.kind) {
      AskedRan(h, g, e);
      var answer := h.handler(e.node, e.before);
      if answer.HandlerError? { OnErrorDecides(g, e.id, e.node, answer.message); }
    } else {
      OtherRan(h, g, e);
    }
  }

  // ---- What the next node reads ----

  /** The context a node leaves: with its outputs, if it produced any. */
  function Left(env: Env, e: Entry): Context {
    if e.outcome.Advanced? || e.outcome.Suspended? then env.record(e.node, e.before, e.outcome.outputs) else e.before
  }

  ghost predicate Linked(env: Env, ctx: Context, p: Progress) {
    && (if p.trace == [] then p.context == ctx
        else p.trace[0].before == ctx && p.context == Left(env, p.trace[|p.trace| - 1]))
    && forall i, j :: 0 <= i < |p.trace| - 1 && j == i + 1 ==> p.trace[j].before == Left(env, p.trace[i])
  }

  lemma RunLinks(env: Env, g: Graph, ctx: Context, id: string, p: Progress, q: Progress)
    requires Linked(env, ctx, p) && id in g.nodes && q == RunNode(env, g, id, p).0
    ensures Linked(env, ctx, q)
  {
  }

  lemma SkipLinks(env: Env, g: Graph, ctx: Context, id: string, p: Progress, q: Progress)
    requires Linked(env, ctx, p) && q == Skipped(env, g, id, p)
    ensures Linked(env, ctx, q)
  {
  }

  lemma PopLinks(env: Env, g: Graph, ctx: Context, id: string, p: Progress, q: Progress, next: seq<string>)
    requires Linked(env, ctx, p) && p.stop.None? && (q, next) == Pop(env, g, id, p)
    ensures Linked(env, ctx, q)
  {
    if Executor.Runs(env, g, id, p) {
      PopThatRuns(env, g, id, p);
      RunLinks(env, g, ctx, id, p, q);
    } else {
      PopThatSkips(env, g, id, p);
      SkipLinks(env, g, ctx, id, p, q);
    }
  }

  lemma {:induction false} MachineLinks(env: Env, g: Graph, ctx: Context, stack: seq<string>, p: Progress)
    requires Linked(env, ctx, p)
    ensures Linked(env, ctx, Machine(env, g, stack, p).0)
    decreases Unvisited(g, p), |stack|
  {
    if p.stop.None? && stack != [] {
      var id := stack[|stack| - 1];
      var (q, next) := Pop(env, g, id, p);
      PopLinks(env, g, ctx, id, p, q, next);
      MachineLinks(env, g, ctx, stack[..|stack| - 1] + Reverse(next), q);
    }
  }

  predicate Labelled(n: Node) {
    n.data.Object? && "label" in n.data.fields && n.data.fields["label"].String? && !Text.AllWhite(n.data.fields["label"].str)
  }

  /** The key a node's outputs are stored under: its label without the white space around it, or its id. */
  ghost predicate StoredUnder(n: Node, key: string) {
    if Labelled(n) then IsTrimmed(n.data.fields["label"].str, key) else key == n.id
  }

  ghost predicate IsTrimmed(name: string, key: string) {
    exists p, q :: Text.AllWhite(p) && Text.AllWhite(q) && key != "" && Text.Bare(key) && name == p + key + q
  }

  lemma TrimmedIsTrim(name: string, key: string)
    requires IsTrimmed(name, key)
    ensures Text.Trim(name) == key != ""
  {
    var p, q :| Text.AllWhite(p) && Text.AllWhite(q) && key != "" && Text.Bare(key) && name == p + key + q;
    Text.TrimIs(p, key, q);
  }

  lemma StoredUnderPrimaryKey(n: Node, key: string)
    requires StoredUnder(n, key)
    ensures PrimaryKey(n) == key
    ensures Labelled(n) ==> n.data.GetString("label").Some? && Text.Trim(n.data.GetString("label").value) == key != ""
    ensures !Labelled(n) ==> n.data.GetString("label").None? || Text.Trim(n.data.GetString("label").value) == ""
  {
    var name := n.data.GetString("label");
    if Labelled(n) {
      TrimmedIsTrim(name.value, key);
    } else if name.Some? {
      Text.TrimIs(name.value, "", "");
      assert name.value + "" + "" == name.value;
    }
  }

  /** The keys a node's outputs go to, and what stays. */
  predicate Reads(h: Handlers, e: Entry, next: Context, key: string, other: string) {
    if e.outcome.Tolerated? then next == e.before
    else
      && e.outcome.Advanced? && key in next && next[key] == e.outcome.outputs
      && (other != key && other != h.lower(key) ==>
            (other in next <==> other in e.before) && (other in next ==> next[other] == e.before[other]))
  }

  lemma LeftReads(host: Host, g: Graph, e: Entry, key: string, other: string)
    requires StoredUnder(e.node, key) && e.outcome.GoesOn()
    ensures Reads(host.handlers, e, Left(EnvOf(host, g), e), key, other)
    ensures e.outcome.Advanced? && Labelled(e.node) ==>
              var next := Left(EnvOf(host, g), e);
              host.handlers.lower(key) in next && next[host.handlers.lower(key)] == e.outcome.outputs
  {
    StoredUnderPrimaryKey(e.node, key);
  }

  lemma WalkLinks(host: Host, snapshot: Value, g: Graph, order: seq<string>, p: Progress)
    requires SnapshotGraph(snapshot) == Some(g) && IsOrder(order, g) && p == Walk(host, snapshot, order).0
    ensures Linked(EnvOf(host, g), InitialContext(snapshot, g, order), p)
    ensures StopExplained(EnvOf(host, g), p)
  {
    var env, ctx := EnvOf(host, g), InitialContext(snapshot, g, order);
    MachineLinks(env, g, ctx, StartList(snapshot, g, order), Fresh(ctx));
    SegmentInv(env, g, StartList(snapshot, g, order), ctx);
  }

  /**
   The first node reads the initial context; each later one finds the outputs of the one before
   under its key, and under the lower-case form of its label, and everything else as that one
   found it.
   */
  lemma NextNodeReadsOutputs(
      host: Host, snapshot: Value, g: Graph, order: seq<string>, p: Progress, i: nat, key: string, other: string)
    requires SnapshotGraph(snapshot) == Some(g) && IsOrder(order, g) && p == Walk(host, snapshot, order).0
    requires i + 1 < |p.trace| && StoredUnder(p.trace[i].node, key)
    ensures p.trace[0].before == InitialContext(snapshot, g, order)
    ensures Reads(host.handlers, p.trace[i], p.trace[i + 1].before, key, other)
    ensures p.trace[i].outcome.Advanced? && Labelled(p.trace[i].node) ==>
              var alias, next := host.handlers.lower(key), p.trace[i + 1].before;
              alias in next && next[alias] == p.trace[i].outcome.outputs
  {
    WalkLinks(host, snapshot, g, order, p);
    var j := i + 1;
    assert p.trace[j].before == Left(EnvOf(host, g), p.trace[i]);
    assert p.trace[i].outcome.GoesOn();
    LeftReads(host, g, p.trace[i], key, other);
  }

  // ---- Polls ----

  /** Every poll so far let the loop go on, except the last one if the loop was polled away. */
  ghost predicate PolledRight(env: Env, p: Progress) {
    && |p.trace| + (if Polled(p) then 1 else 0) <= p.pops
    && (forall k: nat :: k < p.pops - (if Polled(p) then 1 else 0) ==> env.poll(k) == Proceed)
    && (p.stop == Some(LostLease) ==> env.poll(p.pops - 1) == LeaseLost)
    && (p.stop == Some(SawCancel) ==> env.poll(p.pops - 1) == CancelSeen)
  }

  lemma RunPolls(env: Env, g: Graph, id: string, p: Progress, q: Progress)
    requires PolledRight(env, p) && p.stop.None? && id in g.nodes && env.poll(p.pops) == Proceed
    requires q == RunNode(env, g, id, p).0
    ensures PolledRight(env, q)
  {
  }

  lemma SkipPolls(env: Env, g: Graph, id: string, p: Progress, q: Progress)
    requires PolledRight(env, p) && p.stop.None? && q == Skipped(env, g, id, p)
    ensures PolledRight(env, q)
  {
  }

  lemma PopPolls(env: Env, g: Graph, id: string, p: Progress, q: Progress, next: seq<string>)
    requires PolledRight(env, p) && p.stop.None? && (q, next) == Pop(env, g, id, p)
    ensures PolledRight(env, q)
  {
    if Executor.Runs(env, g, id, p) {
      PopThatRuns(env, g, id, p);
      RunPolls(env, g, id, p, q);
    } else {
      PopThatSkips(env, g, id, p);
      SkipPolls(env, g, id, p, q);
    }
  }

  lemma {:induction false} MachinePolls(env: Env, g: Graph, stack: seq<string>, p: Progress)
    requires PolledRight(env, p)
    ensures PolledRight(env, Machine(env, g, stack, p).0)
    decreases Unvisited(g, p), |stack|
  {
    if p.stop.None? && stack != [] {
      var id := stack[|stack| - 1];
      var (q, next) := Pop(env, g, id, p);
      PopPolls(env, g, id, p, q, next);
      MachinePolls(env, g, stack[..|stack| - 1] + Reverse(next), q);
    }
  }

  /**
   The first poll that finds the lease lost or the run canceled ends the walk, before the node
   it was made for: no earlier poll found either, and no later one is made.
   */
  lemma PollsEndTheWalk(host: Host, snapshot: Value, g: Graph, order: seq<string>, p: Progress)
    requires SnapshotGraph(snapshot) == Some(g) && IsOrder(order, g) && p == Walk(host, snapshot, order).0
    ensures (forall k: nat :: k < p.pops ==> host.poll(k) == Proceed)
       || (p.pops > 0 && |p.trace| < p.pops
           && (forall k: nat :: k < p.pops - 1 ==> host.poll(k) == Proceed)
           && match host.poll(p.pops - 1)
              case LeaseLost => p.stop == Some(LostLease)
              case CancelSeen => p.stop == Some(SawCancel)
              case Proceed => false)
    ensures p.stop == Some(LostLease) || p.stop == Some(SawCancel) ==> p.pops > 0 && host.poll(p.pops - 1) != Proceed
  {
    MachinePolls(EnvOf(host, g), g, StartList(snapshot, g, order), Fresh(InitialContext(snapshot, g, order)));
    PollsSay(EnvOf(host, g), p);
  }

  lemma PollsSay(env: Env, p: Progress)
    requires PolledRight(env, p)
    ensures (forall k: nat :: k < p.pops ==> env.poll(k) == Proceed) || (p.pops > 0 && Polled(p))
    ensures Polled(p) ==> p.pops > 0 && |p.trace| < p.pops && env.poll(p.pops - 1) != Proceed
    ensures Polled(p) ==> (p.stop == Some(SawCancel) <==> env.poll(p.pops - 1) == CancelSeen)
    ensures Polled(p) ==> forall k: nat :: k < p.pops - 1 ==> env.poll(k) == Proceed
  {
  }
}
