/**
 Reading back what a pause wrote: the snapshot stored at a pause makes the next
 execution of the run start from the paused context and the delay's successors
 (backend/src/engine/executor.rs:104-123, 193-233, 521-556).
 */
module Resumption {
  import opened Wrappers
  import opened JsonValues
  import opened Graphs
  import opened NodeExecution
  import opened Executor
  import opened Secrets
  import Text
  import opened Walks
  import opened Runs
  import opened PauseResume

  // ---- The context only grows ----

  ghost predicate RecordGrows(env: Env) {
    forall node: Node, ctx: Context, outputs: Value :: ctx.Keys <= env.record(node, ctx, outputs).Keys
  }

  lemma PopGrowsContext(env: Env, g: Graph, id: string, p: Progress)
    requires RecordGrows(env) && p.stop.None?
    ensures p.context.Keys <= Pop(env, g, id, p).0.context.Keys
  {
    if Executor.Runs(env, g, id, p) {
      PopThatRuns(env, g, id, p);
      RunGrowsContext(env, g, id, p);
    } else {
      PopThatSkips(env, g, id, p);
    }
  }

  lemma RunGrowsContext(env: Env, g: Graph, id: string, p: Progress)
    requires RecordGrows(env) && id in g.nodes
    ensures p.context.Keys <= RunNode(env, g, id, p).0.context.Keys
  {
    var o := env.exec(id, g.nodes[id], p.context);
    if o.Advanced? || o.Suspended? {
      assert p.context.Keys <= env.record(g.nodes[id], p.context, o.outputs).Keys;
    }
  }

  lemma {:induction false} MachineGrowsContext(env: Env, g: Graph, stack: seq<string>, p: Progress)
    requires RecordGrows(env)
    ensures p.context.Keys <= Machine(env, g, stack, p).0.context.Keys
    decreases Unvisited(g, p), |stack|
  {
    if p.stop.None? && stack != [] {
      var id := stack[|stack| - 1];
      var r := Pop(env, g, id, p);
      PopGrowsContext(env, g, id, p);
      MachineGrowsContext(env, g, stack[..|stack| - 1] + Reverse(r.1), r.0);
    }
  }

  lemma RealRecordGrows(host: Host, g: Graph)
    ensures RecordGrows(EnvOf(host, g))
  {
  }

  // ---- Reading the paused snapshot ----

  lemma PausedKeepsGraph(host: Host, snapshot: Value, ctx: Context, next: seq<string>, at: int)
    ensures SnapshotGraph(PausedSnapshot(host, snapshot, ctx, next, at)) == SnapshotGraph(snapshot)
  {
    GraphIgnoresOtherKeys(PausedSnapshot(host, snapshot, ctx, next, at), snapshot);
  }

  lemma PausedFields(host: Host, snapshot: Value, ctx: Context, next: seq<string>, at: int)
    requires snapshot.Object?
    ensures
      var paused := PausedSnapshot(host, snapshot, ctx, next, at);
      && ResumeContext(paused) == ctx
      && paused.Get("_trigger_context") == snapshot.Get("_trigger_context")
      && NamedStart(paused) == (if next == [] then NamedStart(snapshot) else [next[0]])
  {
  }

  lemma PausedNodes(host: Host, snapshot: Value, ctx: Context, next: seq<string>, at: int)
    requires snapshot.Object?
    ensures
      var items := PausedSnapshot(host, snapshot, ctx, next, at).GetArray("_resume_from_nodes");
      items.Some? && Strings(items.value) == next
  {
    var vs := PausedSnapshot(host, snapshot, ctx, next, at).GetArray("_resume_from_nodes").value;
    assert |vs| == |next| && forall i :: 0 <= i < |next| ==> vs[i] == String(next[i]);
    StringsOf(vs, next);
  }

  lemma {:induction false} StringsOf(vs: seq<Value>, ids: seq<string>)
    requires |vs| == |ids| && forall i :: 0 <= i < |ids| ==> vs[i] == String(ids[i])
    ensures Strings(vs) == ids
  {
    if ids != [] {
      StringsOf(vs[1..], ids[1..]);
    }
  }

  /**
   The start list after a pause: the saved successors; but when the delay node had none,
   the run starts over from its named start node, or has nothing to do when it names none.
   */
  lemma ResumedStartList(host: Host, snapshot: Value, g: Graph, order: seq<string>, ctx: Context, next: seq<string>, at: int)
    requires snapshot.Object? && IsOrder(order, g)
    ensures StartList(PausedSnapshot(host, snapshot, ctx, next, at), g, order)
         == if next != [] then next else NamedStart(snapshot)
  {
    PausedFields(host, snapshot, ctx, next, at);
    PausedNodes(host, snapshot, ctx, next, at);
  }

  /**
   The resumed segment starts with exactly the paused context, if and only if there is no
   trigger payload or the key it would go to is already in that context.
   */
  lemma ResumedContext(host: Host, snapshot: Value, g: Graph, order: seq<string>, ctx: Context, next: seq<string>, at: int)
    requires snapshot.Object? && IsOrder(order, g)
    ensures
      var paused := PausedSnapshot(host, snapshot, ctx, next, at);
      InitialContext(paused, g, order) == ctx
      <==> snapshot.Get("_trigger_context").None? || TriggerKey(paused, g, order) in ctx
  {
    PausedFields(host, snapshot, ctx, next, at);
    var paused := PausedSnapshot(host, snapshot, ctx, next, at);
    if snapshot.Get("_trigger_context").Some? && TriggerKey(paused, g, order) !in ctx {
      assert TriggerKey(paused, g, order) in InitialContext(paused, g, order);
    }
  }

  ghost predicate AtMostOneTrigger(g: Graph) {
    forall a, b :: a in g.nodes && b in g.nodes && g.nodes[a].kind == "trigger" && g.nodes[b].kind == "trigger" ==> a == b
  }

  lemma TriggerNodeIsATrigger(s: Value, g: Graph, order: seq<string>)
    requires IsOrder(order, g) && g.Keyed()
    ensures
      var n := TriggerNode(s, g, order);
      if n.Some? then n.value.id in g.nodes && g.nodes[n.value.id] == n.value && n.value.kind == "trigger"
      else forall id :: id in g.nodes ==> g.nodes[id].kind != "trigger"
  {
  }

  /** With at most one trigger the payload's key depends neither on the named start nor on hash order. */
  lemma OneTriggerOneKey(s: Value, t: Value, g: Graph, order: seq<string>, order': seq<string>)
    requires IsOrder(order, g) && IsOrder(order', g) && g.Keyed() && AtMostOneTrigger(g)
    ensures TriggerKey(s, g, order) == TriggerKey(t, g, order')
  {
    TriggerNodeIsATrigger(s, g, order);
    TriggerNodeIsATrigger(t, g, order');
  }

  /** The first segment's context holds the payload's key from the start. */
  lemma InitialHasTriggerKey(snapshot: Value, g: Graph, order: seq<string>)
    requires IsOrder(order, g)
    ensures snapshot.Get("_trigger_context").Some? ==> TriggerKey(snapshot, g, order) in InitialContext(snapshot, g, order)
  {
  }

  lemma WalkKeepsTriggerKey(host: Host, snapshot: Value, order: seq<string>, p: Progress)
    requires WellFormed(snapshot) && IsOrder(order, SnapshotGraph(snapshot).value)
    requires p == Walk(host, snapshot, order).0
    ensures snapshot.Get("_trigger_context").Some? ==> TriggerKey(snapshot, SnapshotGraph(snapshot).value, order) in p.context
  {
    var g := SnapshotGraph(snapshot).value;
    var ctx := InitialContext(snapshot, g, order);
    InitialHasTriggerKey(snapshot, g, order);
    RealRecordGrows(host, g);
    MachineGrowsContext(EnvOf(host, g), g, StartList(snapshot, g, order), Fresh(ctx));
  }

  // ---- Filling secrets in again ----

  /** On resume, outputs that read as references to stored secrets are replaced: exactly then the context differs. */
  lemma HydrationKeepsContext(
      host: Host, snapshot: Value, ctx: Context, next: seq<string>, at: int, store: SecretStore)
    requires snapshot.Object?
    ensures
      var paused := PausedSnapshot(host, snapshot, ctx, next, at);
      ResumeContext(Hydrate(paused, store)) == ctx <==> Settled(Object(ctx), store)
  {
    var paused := PausedSnapshot(host, snapshot, ctx, next, at);
    PausedContextField(host, snapshot, ctx, next, at);
    HydratedField(paused, "_resume_context", store);
    HydrateFixes(Object(ctx), store);
  }

  /** An output that reads "g:s:n" in the paused context comes back as the secret of that name. */
  lemma OutputComesBackAsASecret(host: Host, snapshot: Value, next: seq<string>, at: int, plaintext: string)
    requires snapshot.Object? && plaintext != "g:s:n"
    ensures
      var ctx: Context := map["node" := String("g:s:n")];
      var paused := PausedSnapshot(host, snapshot, ctx, next, at);
      ResumeContext(Hydrate(paused, map[["g", "s", "n"] := plaintext])) != ctx
  {
    var ctx: Context := map["node" := String("g:s:n")];
    var store: SecretStore := map[["g", "s", "n"] := plaintext];
    ReferenceParts("g:s:n");
    assert !Settled(ctx["node"], store);
    HydrationKeepsContext(host, snapshot, ctx, next, at, store);
  }

  lemma ReferenceParts(s: string)
    requires s == "g:s:n"
    ensures Text.SplitOn(s, ':') == ["g", "s", "n"]
  {
    assert s == "g:s" + [':'] + "n" && "g:s" == "g" + [':'] + "s";
    Text.SplitOnConcat("g:s", "n", ':');
    Text.SplitOnConcat("g", "s", ':');
    Text.SplitOnPlain("g", ':');
    Text.SplitOnPlain("s", ':');
    Text.SplitOnPlain("n", ':');
  }

  lemma PausedContextField(host: Host, snapshot: Value, ctx: Context, next: seq<string>, at: int)
    requires snapshot.Object?
    ensures PausedSnapshot(host, snapshot, ctx, next, at).Get("_resume_context") == Some(Object(ctx))
  {
  }

  lemma HydratedField(v: Value, key: string, store: SecretStore)
    requires v.Get(key).Some?
    ensures Hydrate(v, store).Get(key) == Some(Hydrate(v.Get(key).value, store))
  {
  }

  // ---- What the next execution reads: the paused snapshot with its secrets filled in ----

  lemma {:induction false} HydratedStrings(ids: seq<string>, vs: seq<Value>, store: SecretStore)
    requires |vs| == |ids| && forall i :: 0 <= i < |ids| ==> vs[i] == String(Resolve(ids[i], store))
    ensures |Strings(vs)| == |ids| && forall i :: 0 <= i < |ids| ==> Strings(vs)[i] == Resolve(ids[i], store)
  {
    if ids != [] {
      HydratedStrings(ids[1..], vs[1..], store);
    }
  }

  lemma PausedIdsField(host: Host, snapshot: Value, ctx: Context, next: seq<string>, at: int, vs: seq<Value>)
    requires snapshot.Object? && |vs| == |next| && forall i :: 0 <= i < |next| ==> vs[i] == String(next[i])
    ensures PausedSnapshot(host, snapshot, ctx, next, at).Get("_resume_from_nodes") == Some(Array(vs))
  {
    assert vs == seq(|next|, i requires 0 <= i < |next| => String(next[i]));
  }

  lemma HydratedIds(host: Host, snapshot: Value, ctx: Context, next: seq<string>, at: int, store: SecretStore)
    requires snapshot.Object?
    ensures
      var items := Hydrate(PausedSnapshot(host, snapshot, ctx, next, at), store).GetArray("_resume_from_nodes");
      && items.Some? && |Strings(items.value)| == |next|
      && forall i :: 0 <= i < |next| ==> Strings(items.value)[i] == Resolve(next[i], store)
  {
    var paused := PausedSnapshot(host, snapshot, ctx, next, at);
    var vs := seq(|next|, i requires 0 <= i < |next| => String(next[i]));
    PausedIdsField(host, snapshot, ctx, next, at, vs);
    HydratedField(paused, "_resume_from_nodes", store);
    HydratedStrings(next, Hydrate(Array(vs), store).items, store);
  }

  lemma HydratedNamedStart(v: Value, store: SecretStore)
    ensures NamedStart(Hydrate(v, store)) == [] <==> NamedStart(v) == []
  {
    if v.Get("_start_from_node").Some? {
      HydratedField(v, "_start_from_node", store);
    }
  }

  /** The next execution starts from this list. */
  predicate ReadsBackAs(snapshot: Value, next: seq<string>, store: SecretStore) {
    if next == [] then NamedStart(snapshot) == [] else forall id :: id in next ==> Resolve(id, store) == id
  }

  /**
   The next execution starts from the saved successors if and only if there are some and none
   reads as a secret, or there are none and no start node is named.
   */
  lemma ResumedRunStarts(
      host: Host, snapshot: Value, ctx: Context, next: seq<string>, at: int, store: SecretStore, g': Graph, order': seq<string>)
    requires snapshot.Object? && IsOrder(order', g')
    ensures StartList(Hydrate(PausedSnapshot(host, snapshot, ctx, next, at), store), g', order') == next
       <==> ReadsBackAs(snapshot, next, store)
  {
    var paused := PausedSnapshot(host, snapshot, ctx, next, at);
    HydratedIds(host, snapshot, ctx, next, at, store);
    if next == [] {
      PausedFields(host, snapshot, ctx, next, at);
      HydratedNamedStart(paused, store);
    } else {
      var ids := Strings(Hydrate(paused, store).GetArray("_resume_from_nodes").value);
      assert forall i :: 0 <= i < |next| ==> next[i] in next;
      assert ids == next <==> forall i :: 0 <= i < |next| ==> ids[i] == next[i];
    }
  }

  lemma HydratedContextKeys(
      host: Host, snapshot: Value, ctx: Context, next: seq<string>, at: int, store: SecretStore)
    requires snapshot.Object?
    ensures ResumeContext(Hydrate(PausedSnapshot(host, snapshot, ctx, next, at), store)).Keys == ctx.Keys
  {
    PausedContextField(host, snapshot, ctx, next, at);
    HydratedField(PausedSnapshot(host, snapshot, ctx, next, at), "_resume_context", store);
  }

  lemma HydratedTrigger(host: Host, snapshot: Value, ctx: Context, next: seq<string>, at: int, store: SecretStore)
    requires snapshot.Object?
    ensures Hydrate(PausedSnapshot(host, snapshot, ctx, next, at), store).Get("_trigger_context").Some?
       <==> snapshot.Get("_trigger_context").Some?
  {
    PausedFields(host, snapshot, ctx, next, at);
  }

  /** The payload goes to a key the context lacks, or nowhere. */
  lemma PayloadGrowsContext(s: Value, g: Graph, order: seq<string>)
    requires IsOrder(order, g)
    ensures InitialContext(s, g, order) == ResumeContext(s)
       <==> s.Get("_trigger_context").None? || TriggerKey(s, g, order) in ResumeContext(s)
    ensures InitialContext(s, g, order).Keys == ResumeContext(s).Keys ==> InitialContext(s, g, order) == ResumeContext(s)
  {
    if s.Get("_trigger_context").Some? && TriggerKey(s, g, order) !in ResumeContext(s) {
      assert TriggerKey(s, g, order) in InitialContext(s, g, order).Keys;
    }
  }

  /**
   The next execution starts with the paused context if and only if no output in it reads as a
   secret, and there is no trigger payload or the key it would go to is there already.
   */
  lemma ResumedRunContext(
      host: Host, snapshot: Value, ctx: Context, next: seq<string>, at: int, store: SecretStore, g': Graph, order': seq<string>)
    requires snapshot.Object? && IsOrder(order', g')
    ensures
      var h := Hydrate(PausedSnapshot(host, snapshot, ctx, next, at), store);
      InitialContext(h, g', order') == ctx
      <==> Settled(Object(ctx), store) && (snapshot.Get("_trigger_context").None? || TriggerKey(h, g', order') in ctx)
  {
    var h := Hydrate(PausedSnapshot(host, snapshot, ctx, next, at), store);
    HydrationKeepsContext(host, snapshot, ctx, next, at, store);
    HydratedContextKeys(host, snapshot, ctx, next, at, store);
    HydratedTrigger(host, snapshot, ctx, next, at, store);
    PayloadGrowsContext(h, g', order');
  }

  // ---- What filling the same secrets in again can change ----

  /** After one filling-in, no target of an edge reads as a secret. */
  lemma TargetsAreSettled(snapshot: Value, g: Graph, id: string, t: string, store: SecretStore)
    requires SnapshotGraph(snapshot) == Some(g) && Settled(snapshot, store)
    requires t in g.Targets(id)
    ensures Resolve(t, store) == t
  {
    var vs := snapshot.GetArray("edges").value;
    var out := g.Outgoing(id);
    var i :| 0 <= i < |out| && out[i].target == t;
    assert out[i] in g.Outgoing(id);
    OutgoingIsFilter(snapshot, id);
    FilterMembers(EdgeList(vs), id);
    var k :| 0 <= k < |vs| && EdgeList(vs)[k] == out[i];
    SettledEdge(snapshot, vs, k, store);
  }

  lemma SettledEdge(snapshot: Value, vs: seq<Value>, k: nat, store: SecretStore)
    requires Settled(snapshot, store) && snapshot.GetArray("edges") == Some(vs) && k < |vs| && EdgeShaped(vs[k])
    ensures Resolve(EdgeOf(vs[k]).target, store) == EdgeOf(vs[k]).target
  {
    assert Settled(snapshot.fields["edges"], store);
    assert Settled(vs[k], store);
    assert Settled(vs[k].fields["target"], store);
  }

  lemma SettledField(host: Host, snapshot: Value, ctx: Context, next: seq<string>, at: int, store: SecretStore, key: string)
    requires snapshot.Object? && Settled(snapshot, store)
    requires forall id :: id in next ==> Resolve(id, store) == id
    requires key in PausedSnapshot(host, snapshot, ctx, next, at).fields
    requires key != "_resume_context" && key != "_resume_at"
    ensures Settled(PausedSnapshot(host, snapshot, ctx, next, at).fields[key], store)
  {
    var saved := seq(|next|, i requires 0 <= i < |next| => String(next[i]));
    assert Settled(Array(saved), store) by {
      assert forall i :: 0 <= i < |saved| ==> next[i] in next && Settled(saved[i], store);
    }
    if key == "_start_from_node" && next != [] {
      assert next[0] in next;
    }
  }

  /** The fields that come back as they were written. */
  predicate SameElsewhere(paused: Value, h: Value) {
    && paused.Object? && h.Object? && h.fields.Keys == paused.fields.Keys
    && forall key :: key in paused.fields && key != "_resume_context" && key != "_resume_at" ==> h.fields[key] == paused.fields[key]
  }

  lemma SettledElsewhere(host: Host, snapshot: Value, ctx: Context, next: seq<string>, at: int, store: SecretStore)
    requires snapshot.Object? && Settled(snapshot, store)
    requires forall id :: id in next ==> Resolve(id, store) == id
    ensures
      var paused := PausedSnapshot(host, snapshot, ctx, next, at);
      SameElsewhere(paused, Hydrate(paused, store))
  {
    var paused := PausedSnapshot(host, snapshot, ctx, next, at);
    var h := Hydrate(paused, store);
    assert h.Object? && h.fields.Keys == paused.fields.Keys;
    forall key | key in paused.fields && key != "_resume_context" && key != "_resume_at"
      ensures h.fields[key] == paused.fields[key]
    {
      SettledField(host, snapshot, ctx, next, at, store, key);
      HydrateFixes(paused.fields[key], store);
    }
  }

  lemma SameGraphElsewhere(paused: Value, h: Value)
    requires SameElsewhere(paused, h)
    ensures SnapshotGraph(h) == SnapshotGraph(paused)
  {
    assert h.Get("nodes") == paused.Get("nodes") && h.Get("edges") == paused.Get("edges");
    GraphIgnoresOtherKeys(h, paused);
  }

  /**
   When the same secrets are filled in again after a pause at node `id`, and no plaintext is
   itself a reference, only the context and the time stamp can change; so the graph and the
   saved successors stay.
   */
  lemma WhatHydrationCanChange(
      host: Host, stored: Value, g: Graph, ctx: Context, id: string, at: int, store: SecretStore, paused: Value)
    requires PlainStore(store) && SnapshotGraph(Hydrate(stored, store)) == Some(g)
    requires paused == PausedSnapshot(host, Hydrate(stored, store), ctx, g.Targets(id), at)
    ensures SameElsewhere(paused, Hydrate(paused, store)) && SnapshotGraph(Hydrate(paused, store)) == Some(g)
    ensures forall t :: t in g.Targets(id) ==> Resolve(t, store) == t
  {
    var snapshot, next := Hydrate(stored, store), g.Targets(id);
    HydratedIsSettled(stored, store);
    forall t | t in next
      ensures Resolve(t, store) == t
    {
      TargetsAreSettled(snapshot, g, id, t, store);
    }
    SettledElsewhere(host, snapshot, ctx, next, at, store);
    PausedKeepsGraph(host, snapshot, ctx, next, at);
    SameGraphElsewhere(paused, Hydrate(paused, store));
  }

  // ---- Resuming ----

  /** A run over `snapshot` that pauses with some successor to save, leaving `rest` on the stack. */
  ghost predicate PausesAt(
      host: Host, snapshot: Value, g: Graph, order: seq<string>,
      p: Progress, rest: seq<string>, next: seq<string>, at: int)
  {
    && SnapshotGraph(snapshot) == Some(g) && IsOrder(order, g)
    && (p, rest) == Walk(host, snapshot, order)
    && p.stop == Some(PausedUntil(at, next)) && next != []
  }

  /**
   With at most one trigger and a non-empty successor list, executing the paused snapshot
   walks the same graph from exactly the saved successors and the paused context, whatever
   host picks it up and however its hash maps iterate, provided that no string of the paused
   snapshot reads as one of that host's secrets.
   */
  lemma ResumesWhereItPaused(
      host: Host, host': Host, snapshot: Value, g: Graph, order: seq<string>, order': seq<string>,
      p: Progress, rest: seq<string>, next: seq<string>, at: int, paused: Value)
    requires PausesAt(host, snapshot, g, order, p, rest, next, at)
    requires AtMostOneTrigger(g) && IsOrder(order', g)
    requires paused == PausedSnapshot(host, snapshot, p.context, next, at)
    ensures SnapshotGraph(paused) == Some(g)
    ensures StartList(paused, g, order') == next
    ensures InitialContext(paused, g, order') == p.context
    ensures Walk(host', paused, order') == Segment(EnvOf(host', g), g, next, p.context)
    ensures Settled(paused, host'.secrets) ==> Hydrate(paused, host'.secrets) == paused
  {
    PausedKeepsGraph(host, snapshot, p.context, next, at);
    ResumedStartList(host, snapshot, g, order', p.context, next, at);
    WalkKeepsTriggerKey(host, snapshot, order, p);
    OneTriggerOneKey(snapshot, paused, g, order, order');
    ResumedContext(host, snapshot, g, order', p.context, next, at);
    HydrateFixes(paused, host'.secrets);
  }

  // ---- A run executed any number of times ----

  /** One execution of a run: where, over what the database held, and how its walk ended. */
  datatype Execution = Execution(host: Host, stored: Value, order: seq<string>, p: Progress, rest: seq<string>) {
    function Snapshot(): Value {
      Hydrate(stored, host.secrets)
    }

    ghost predicate Walks() {
      && WellFormed(Snapshot()) && IsOrder(order, SnapshotGraph(Snapshot()).value)
      && (p, rest) == Walk(host, Snapshot(), order)
    }

    /** The walk made over the stored snapshot, which has these node ids and follows the plan. */
    ghost predicate Ok(ids: set<string>, plan: Plan) {
      Walks() && SnapshotGraph(Snapshot()).value.nodes.Keys == ids && Follows(plan, p.trace)
    }

    ghost function Leg(): Leg
      requires Walks()
    {
      var g := SnapshotGraph(Snapshot()).value;
      PauseResume.Leg(EnvOf(host, g), g, StartList(Snapshot(), g, order), p, rest)
    }
  }

  /** `b` executes what `a` wrote at its pause, and reads the saved successors back from it. */
  predicate Continues(a: Execution, b: Execution) {
    && a.p.stop.Some? && a.p.stop.value.PausedUntil?
    && var PausedUntil(at, next) := a.p.stop.value;
       && b.stored == PausedSnapshot(a.host, a.Snapshot(), a.p.context, next, at)
       && ReadsBackAs(a.Snapshot(), next, b.host.secrets)
  }

  ghost predicate Executions(xs: seq<Execution>, ids: set<string>, plan: Plan) {
    && xs != []
    && (forall x :: x in xs ==> x.Walks() && x.Ok(ids, plan))
    && (forall i, j :: 0 <= i < |xs| - 1 && j == i + 1 ==> Continues(xs[i], xs[j]))
    && xs[|xs| - 1].p.stop.None?
  }

  ghost function Legs(xs: seq<Execution>): (legs: seq<Leg>)
    requires forall x :: x in xs ==> x.Walks()
    ensures |legs| == |xs|
  {
    if xs == [] then [] else [xs[0].Leg()] + Legs(xs[1..])
  }

  lemma {:induction false} LegsAt(xs: seq<Execution>, i: nat)
    requires (forall x :: x in xs ==> x.Walks()) && i < |xs|
    ensures Legs(xs)[i] == xs[i].Leg()
  {
    if i > 0 {
      LegsAt(xs[1..], i - 1);
    }
  }

  lemma RunIsItsWalk(x: Execution)
    requires x.Walks() && x.host.hydration.None? && Retried(x.host.recordEvents)
    ensures CanRun(x.host, x.stored, x.order)
    ensures RunMeaning(x.host, x.stored, x.order) == AfterWalk(x.host, x.Snapshot(), x.p)
  {
    var snapshot := x.Snapshot();
    assert Walk(x.host, snapshot, x.order).0 == x.p;
  }

  lemma PauseOutcome(host: Host, snapshot: Value, p: Progress, at: int, next: seq<string>)
    requires p.stop == Some(PausedUntil(at, next)) && Retried(host.pause)
    ensures AfterWalk(host, snapshot, p)
         == (Paused, RanEvents(p.trace) + [PauseWritten(PausedSnapshot(host, snapshot, p.context, next, at), at)])
  {
  }

  /** What an execution writes at its pause is what the next one continues from. */
  lemma PauseWritesWhatIsContinued(a: Execution, b: Execution)
    requires a.Walks() && Continues(a, b)
    requires a.host.hydration.None? && Retried(a.host.recordEvents) && Retried(a.host.pause)
    ensures CanRun(a.host, a.stored, a.order)
    ensures RunMeaning(a.host, a.stored, a.order)
         == (Paused, RanEvents(a.p.trace) + [PauseWritten(b.stored, a.p.stop.value.resumeAt)])
  {
    var PausedUntil(at, next) := a.p.stop.value;
    RunIsItsWalk(a);
    PauseOutcome(a.host, a.Snapshot(), a.p, at, next);
  }

  lemma ExecutionIsALeg(x: Execution, ids: set<string>, plan: Plan)
    requires x.Ok(ids, plan)
    requires x.p.stop.None? || x.p.stop.value.PausedUntil?
    ensures Walked(x.Leg(), ids, plan)
  {
    var g := SnapshotGraph(x.Snapshot()).value;
    SegmentEnds(EnvOf(x.host, g), g, StartList(x.Snapshot(), g, x.order), InitialContext(x.Snapshot(), g, x.order), x.p, x.rest);
  }

  lemma ContinuingResumes(a: Execution, b: Execution, ids: set<string>, plan: Plan)
    requires a.Ok(ids, plan) && b.Ok(ids, plan) && Continues(a, b)
    ensures PauseResume.Resumes(a.Leg(), b.Leg())
  {
    var PausedUntil(at, next) := a.p.stop.value;
    ResumedRunStarts(
      a.host, a.Snapshot(), a.p.context, next, at, b.host.secrets, SnapshotGraph(b.Snapshot()).value, b.order);
  }

  lemma ExecutionEnds(xs: seq<Execution>, ids: set<string>, plan: Plan, i: nat)
    requires Executions(xs, ids, plan) && i < |xs|
    ensures xs[i].p.stop.None? || xs[i].p.stop.value.PausedUntil?
  {
    if i < |xs| - 1 {
      var j := i + 1;
      assert Continues(xs[i], xs[j]);
    }
  }

  lemma ExecutionsAreAChain(xs: seq<Execution>, ids: set<string>, plan: Plan, legs: seq<Leg>)
    requires Executions(xs, ids, plan) && legs == Legs(xs)
    ensures Chain(legs, ids, xs[0].Leg().start, plan)
  {
    forall i | 0 <= i < |xs|
      ensures Walked(legs[i], ids, plan)
    {
      LegsAt(xs, i);
      ExecutionEnds(xs, ids, plan, i);
      ExecutionIsALeg(xs[i], ids, plan);
    }
    forall i, j | 0 <= i < |xs| - 1 && j == i + 1
      ensures PauseResume.Resumes(legs[i], legs[j])
    {
      LegsAt(xs, i);
      LegsAt(xs, j);
      ContinuingResumes(xs[i], xs[j], ids, plan);
    }
    LegsAt(xs, 0);
    LegsAt(xs, |xs| - 1);
    ExecutionIsALeg(xs[|xs| - 1], ids, plan);
  }

  /** A walk over the run's first snapshot on a host that never waits and never polls it away. */
  ghost predicate GoesThrough(u: Execution, x: Execution, ids: set<string>, plan: Plan) {
    && u.Snapshot() == x.Snapshot() && u.order == x.order
    && u.Walks() && SnapshotGraph(u.Snapshot()).value.nodes.Keys == ids
    && RunsThrough(EnvOf(u.host, SnapshotGraph(u.Snapshot()).value), SnapshotGraph(u.Snapshot()).value, plan)
  }

  lemma GoingThroughIsUninterrupted(u: Execution, x: Execution, ids: set<string>, plan: Plan)
    requires GoesThrough(u, x, ids, plan) && x.Ok(ids, plan)
    ensures Uninterrupted(u.Leg(), ids, x.Leg().start, plan)
  {
    var g := SnapshotGraph(u.Snapshot()).value;
    SegmentEnds(EnvOf(u.host, g), g, StartList(u.Snapshot(), g, u.order), InitialContext(u.Snapshot(), g, u.order), u.p, u.rest);
  }

  /**
   All executions of a run that pauses any number of times, put together: they execute the nodes
   the uninterrupted run executes if and only if nothing is lost at its pauses, whatever hosts
   pick it up, however their hash maps iterate, and whatever filling in their secrets makes of
   the nodes' data and of the context.
   */
  lemma PausedRunDoesTheWholeRun(xs: seq<Execution>, u: Execution, ids: set<string>, plan: Plan)
    requires Executions(xs, ids, plan)
    requires GoesThrough(u, xs[0], ids, plan)
    ensures
      var legs := Legs(xs);
      NothingLost(plan, ids, legs[..|legs| - 1], legs[|legs| - 1].start)
      <==> u.p.stop.None? && forall x :: x in Ids(u.p.trace) <==> Executed(legs, x)
  {
    ExecutionsAreAChain(xs, ids, plan, Legs(xs));
    GoingThroughIsUninterrupted(u, xs[0], ids, plan);
    PauseThenResumeCoversTheRun(Legs(xs), ids, xs[0].Leg().start, plan, u.Leg());
  }
}
