/**
 A run that pauses at delay nodes, any number of times, and is resumed each time,
 compared with the run that would have gone through without pausing. At a pause only
 the delay node's successors are saved (backend/src/engine/executor.rs:521-543): the
 rest of the stack and the visited set are lost.
 */
module PauseResume {
  import opened Graphs
  import opened NodeExecution
  import opened Executor
  import opened Walks

  /** What is fixed per node, whatever the context: whether it is fatal, and which successors it chooses. */
  datatype Plan = Plan(fatal: string -> bool, next: string -> seq<string>)

  predicate Obeys(plan: Plan, id: string, o: Outcome) {
    if plan.fatal(id) then o.Fatal? else !o.Fatal? && o.next == plan.next(id)
  }

  /** Every node executed did what is planned for it; outputs may still depend on the context. */
  ghost predicate Follows(plan: Plan, trace: seq<Entry>) {
    forall e :: e in trace ==> Obeys(plan, e.id, e.outcome)
  }

  /** The environment of a run under the same plan that never waits and is never polled away. */
  ghost predicate RunsThrough(env: Env, g: Graph, plan: Plan) {
    && (forall id, ctx :: id in g.nodes ==>
          Obeys(plan, id, env.exec(id, g.nodes[id], ctx)) && !env.exec(id, g.nodes[id], ctx).Suspended?)
    && (forall k: nat :: env.poll(k) == Proceed)
  }

  lemma PopNotPolledAway(env: Env, g: Graph, id: string, p: Progress)
    requires env.poll(p.pops) == Proceed && !Polled(p)
    ensures !Polled(Pop(env, g, id, p).0)
  {
  }

  lemma {:induction false} NeverPolledAway(env: Env, g: Graph, stack: seq<string>, p: Progress)
    requires forall k: nat :: env.poll(k) == Proceed
    requires !Polled(p)
    ensures !Polled(Machine(env, g, stack, p).0)
    decreases Unvisited(g, p), |stack|
  {
    if p.stop.None? && stack != [] {
      var id := stack[|stack| - 1];
      var r := Pop(env, g, id, p);
      PopNotPolledAway(env, g, id, p);
      NeverPolledAway(env, g, stack[..|stack| - 1] + Reverse(r.1), r.0);
    }
  }

  // ---- Legs of a run ----

  /**
   One execution of a run, from its start list to where it ends, with `rest` left on the stack.
   Its graph may differ from the other legs' in what the nodes hold, but not in their ids.
   */
  datatype Leg = Leg(env: Env, g: Graph, start: seq<string>, p: Progress, rest: seq<string>) {
    predicate Paused() {
      p.stop.Some? && p.stop.value.PausedUntil?
    }

    predicate Drained() {
      p.stop.None? && rest == []
    }
  }

  /** A leg that paused or drained, doing what was planned for the nodes of `ids`. */
  ghost predicate Walked(leg: Leg, ids: set<string>, plan: Plan) {
    && Inv(leg.env, leg.g, leg.start, leg.rest, leg.p)
    && leg.g.nodes.Keys == ids
    && Follows(plan, leg.p.trace)
    && (leg.Paused() || leg.Drained())
  }

  /** `b` starts from the successors saved when `a` paused. */
  predicate Resumes(a: Leg, b: Leg) {
    a.Paused() && b.start == a.p.stop.value.next
  }

  /** A run that pauses after every leg but the last, which drains. */
  ghost predicate Chain(legs: seq<Leg>, ids: set<string>, start: seq<string>, plan: Plan) {
    && legs != [] && legs[0].start == start
    && (forall i :: 0 <= i < |legs| ==> Walked(legs[i], ids, plan))
    && (forall i, j :: 0 <= i < |legs| - 1 && j == i + 1 ==> Resumes(legs[i], legs[j]))
    && legs[|legs| - 1].Drained()
  }

  /** Some leg executed this node. */
  ghost predicate Executed(legs: seq<Leg>, x: string) {
    exists leg :: leg in legs && x in Ids(leg.p.trace)
  }

  /** Left-over ids that name graph nodes were all executed by some leg. */
  ghost predicate LeftoverDone(legs: seq<Leg>, ids: set<string>) {
    forall leg, x :: leg in legs && x in leg.rest && x in ids ==> Executed(legs, x)
  }

  // ---- What the last leg will do, known at the last pause ----

  /** A path of planned successors through the nodes of `ids`. */
  ghost predicate PlanPath(plan: Plan, ids: set<string>, roots: seq<string>, path: seq<string>) {
    && path != []
    && path[0] in roots
    && forall i :: 0 <= i < |path| - 1 ==> path[i] in ids && path[i + 1] in plan.next(path[i])
  }

  ghost predicate PlanReaches(plan: Plan, ids: set<string>, roots: seq<string>, x: string) {
    exists path :: PlanPath(plan, ids, roots, path) && path[|path| - 1] == x
  }

  /**
   At the last pause: whatever any pause so far left on the stack was executed by then, or lies
   below the successors saved now.
   */
  ghost predicate NothingLost(plan: Plan, ids: set<string>, paused: seq<Leg>, saved: seq<string>) {
    forall leg, x :: leg in paused && x in leg.rest && x in ids ==> Executed(paused, x) || PlanReaches(plan, ids, saved, x)
  }

  // ---- One leg ----

  lemma DrainedHasStart(leg: Leg, ids: set<string>, plan: Plan, r: string)
    requires Walked(leg, ids, plan) && leg.Drained() && r in leg.start
    ensures r in leg.p.visited
  {
    assert Pending([], leg.p, r);
  }

  lemma PendingStart(leg: Leg, ids: set<string>, plan: Plan, r: string)
    requires Walked(leg, ids, plan) && r in leg.start
    ensures Pending(leg.rest, leg.p, r)
  {
  }

  lemma VisitedIsExecuted(leg: Leg, ids: set<string>, plan: Plan, x: string)
    requires Walked(leg, ids, plan) && x in leg.p.visited && x in ids
    ensures x in Ids(leg.p.trace)
  {
  }

  lemma ExecutedIsANode(leg: Leg, ids: set<string>, plan: Plan, x: string)
    requires Walked(leg, ids, plan) && x in Ids(leg.p.trace)
    ensures x in ids && x in leg.p.visited
  {
  }

  /** The last entry of a paused leg is the delay node whose successors were saved. */
  lemma SavedAreTheDelaysSuccessors(leg: Leg, ids: set<string>, plan: Plan)
    requires Walked(leg, ids, plan) && leg.Paused()
    ensures leg.p.trace != []
    ensures
      var last := leg.p.trace[|leg.p.trace| - 1];
      last.outcome.Suspended? && leg.p.stop.value.next == last.outcome.next
    ensures forall i :: 0 <= i < |leg.p.trace| - 1 ==> leg.p.trace[i].outcome.GoesOn()
  {
  }

  /** No node a leg executed is fatal. */
  lemma ExecutedGoOn(leg: Leg, ids: set<string>, plan: Plan, e: Entry)
    requires Walked(leg, ids, plan) && e in leg.p.trace
    ensures !e.outcome.Fatal? && !plan.fatal(e.id) && e.outcome.Next() == plan.next(e.id)
  {
    assert Obeys(plan, e.id, e.outcome);
    if leg.Paused() {
      SavedAreTheDelaysSuccessors(leg, ids, plan);
    }
  }

  /** A successor chosen in a leg was visited in it, left on its stack, or saved. */
  lemma LegHandsOver(leg: Leg, ids: set<string>, plan: Plan, e: Entry, b: string)
    requires Walked(leg, ids, plan) && e in leg.p.trace && b in e.outcome.Next()
    ensures Pending(leg.rest, leg.p, b) || (leg.Paused() && b in leg.p.stop.value.next)
  {
    if !e.outcome.GoesOn() {
      ExecutedGoOn(leg, ids, plan, e);
      if leg.Paused() {
        SavedAreTheDelaysSuccessors(leg, ids, plan);
      }
    }
  }

  lemma LegFollowsPlan(leg: Leg, ids: set<string>, plan: Plan, a: string, b: string)
    requires Walked(leg, ids, plan) && a in Ids(leg.p.trace) && b in plan.next(a)
    ensures Pending(leg.rest, leg.p, b) || (leg.Paused() && b in leg.p.stop.value.next)
  {
    var e :| e in leg.p.trace && e.id == a;
    ExecutedGoOn(leg, ids, plan, e);
    LegHandsOver(leg, ids, plan, e, b);
  }

  // ---- The uninterrupted run stays inside the chain ----

  lemma PendingIsExecuted(legs: seq<Leg>, ids: set<string>, start: seq<string>, plan: Plan, i: nat, x: string)
    requires Chain(legs, ids, start, plan) && LeftoverDone(legs, ids) && i < |legs|
    requires Pending(legs[i].rest, legs[i].p, x) && x in ids
    ensures Executed(legs, x)
  {
    assert legs[i] in legs;
    if x in legs[i].p.visited {
      VisitedIsExecuted(legs[i], ids, plan, x);
    }
  }

  lemma SavedIsExecuted(legs: seq<Leg>, ids: set<string>, start: seq<string>, plan: Plan, i: nat, x: string)
    requires Chain(legs, ids, start, plan) && LeftoverDone(legs, ids) && i < |legs|
    requires legs[i].Paused() && x in legs[i].p.stop.value.next && x in ids
    ensures Executed(legs, x)
  {
    var j := i + 1;
    assert Resumes(legs[i], legs[j]);
    PendingStart(legs[j], ids, plan, x);
    PendingIsExecuted(legs, ids, start, plan, j, x);
  }

  /** Every planned successor of an executed node is executed or dangling. */
  lemma ChainIsClosed(legs: seq<Leg>, ids: set<string>, start: seq<string>, plan: Plan, a: string, b: string)
    requires Chain(legs, ids, start, plan) && LeftoverDone(legs, ids)
    requires Executed(legs, a) && b in plan.next(a) && b in ids
    ensures Executed(legs, b)
  {
    var leg :| leg in legs && a in Ids(leg.p.trace);
    var i :| 0 <= i < |legs| && legs[i] == leg;
    LegFollowsPlan(leg, ids, plan, a, b);
    if Pending(leg.rest, leg.p, b) {
      PendingIsExecuted(legs, ids, start, plan, i, b);
    } else {
      SavedIsExecuted(legs, ids, start, plan, i, b);
    }
  }

  lemma UninterruptedStaysInside(
      legs: seq<Leg>, ids: set<string>, start: seq<string>, plan: Plan, through: Leg, x: string)
    requires Chain(legs, ids, start, plan) && LeftoverDone(legs, ids)
    requires Uninterrupted(through, ids, start, plan)
    requires x in Ids(through.p.trace)
    ensures Executed(legs, x)
  {
    var s := iset y | Executed(legs, y) || y !in ids;
    forall r | r in start
      ensures r in s
    {
      PendingStart(legs[0], ids, plan, r);
      if r in ids { PendingIsExecuted(legs, ids, start, plan, 0, r); }
    }
    forall a, b | a in s && Chose(through.p.trace, a, b)
      ensures b in s
    {
      ChoseIsPlanned(through, ids, start, plan, a, b);
      if b in ids { ChainIsClosed(legs, ids, start, plan, a, b); }
    }
    assert Pending(through.rest, through.p, x);
    ReachedStaysInside(through.p.trace, start, s, x);
  }

  /** A run from the start list that never waits and is never polled away. */
  ghost predicate Uninterrupted(u: Leg, ids: set<string>, start: seq<string>, plan: Plan) {
    && u.start == start && u.g.nodes.Keys == ids
    && RunsThrough(u.env, u.g, plan)
    && Inv(u.env, u.g, start, u.rest, u.p) && !Polled(u.p) && (u.p.stop.None? ==> u.rest == [])
  }

  lemma UninterruptedObeys(u: Leg, ids: set<string>, start: seq<string>, plan: Plan, e: Entry)
    requires Uninterrupted(u, ids, start, plan) && e in u.p.trace
    ensures e.id in ids && Obeys(plan, e.id, e.outcome) && !e.outcome.Suspended?
  {
  }

  lemma ChoseIsPlanned(u: Leg, ids: set<string>, start: seq<string>, plan: Plan, a: string, b: string)
    requires Uninterrupted(u, ids, start, plan) && Chose(u.p.trace, a, b)
    ensures a in ids && b in plan.next(a)
  {
    var e :| e in u.p.trace && e.id == a && b in e.outcome.Next();
    UninterruptedObeys(u, ids, start, plan, e);
  }

  lemma StopNeedsAStopper(env: Env, p: Progress)
    requires StopExplained(env, p) && !Polled(p)
    requires forall e :: e in p.trace ==> e.outcome.GoesOn()
    ensures p.stop.None?
  {
  }

  /** If the left-overs were done, the uninterrupted run cannot stop early. */
  lemma UninterruptedDrains(legs: seq<Leg>, ids: set<string>, start: seq<string>, plan: Plan, u: Leg)
    requires Chain(legs, ids, start, plan) && LeftoverDone(legs, ids)
    requires Uninterrupted(u, ids, start, plan)
    ensures u.p.stop.None?
  {
    forall e | e in u.p.trace
      ensures e.outcome.GoesOn()
    {
      UninterruptedStaysInside(legs, ids, start, plan, u, e.id);
      var leg :| leg in legs && e.id in Ids(leg.p.trace);
      var d :| d in leg.p.trace && d.id == e.id;
      ExecutedGoOn(leg, ids, plan, d);
      UninterruptedObeys(u, ids, start, plan, e);
    }
    StopNeedsAStopper(u.env, u.p);
  }

  // ---- The uninterrupted run covers the chain ----

  lemma UninterruptedIsClosed(u: Leg, ids: set<string>, start: seq<string>, plan: Plan, a: string, b: string)
    requires Uninterrupted(u, ids, start, plan) && u.p.stop.None?
    requires a in u.p.visited && a in ids && !plan.fatal(a) && b in plan.next(a)
    ensures b in u.p.visited
  {
    assert a in Ids(u.p.trace);
    var e :| e in u.p.trace && e.id == a;
    UninterruptedObeys(u, ids, start, plan, e);
    assert Pending([], u.p, b);
  }

  /** What a leg visited or left is visited by a drained uninterrupted run that visits the leg's start list. */
  lemma LegIsCovered(leg: Leg, ids: set<string>, start: seq<string>, plan: Plan, u: Leg, x: string)
    requires Walked(leg, ids, plan)
    requires Uninterrupted(u, ids, start, plan) && u.p.stop.None?
    requires forall r :: r in leg.start ==> r in u.p.visited
    requires Reached(leg.p.trace, leg.start, x)
    ensures x in u.p.visited
  {
    var s := iset y | y in u.p.visited;
    forall a, b | a in s && Chose(leg.p.trace, a, b)
      ensures b in s
    {
      var e :| e in leg.p.trace && e.id == a && b in e.outcome.Next();
      ExecutedGoOn(leg, ids, plan, e);
      assert a in Ids(leg.p.trace);
      ExecutedIsANode(leg, ids, plan, a);
      UninterruptedIsClosed(u, ids, start, plan, a, b);
    }
    ReachedStaysInside(leg.p.trace, leg.start, s, x);
  }

  lemma SavedAreReached(leg: Leg, ids: set<string>, plan: Plan, r: string)
    requires Walked(leg, ids, plan) && leg.Paused() && r in leg.p.stop.value.next
    ensures Reached(leg.p.trace, leg.start, r)
  {
    SavedAreTheDelaysSuccessors(leg, ids, plan);
    var last := leg.p.trace[|leg.p.trace| - 1];
    assert last in leg.p.trace && last.id in Ids(leg.p.trace);
    ExecutedIsANode(leg, ids, plan, last.id);
    assert Pending(leg.rest, leg.p, last.id);
    assert Chose(leg.p.trace, last.id, r);
    ReachedStep(leg.p.trace, leg.start, last.id, r);
  }

  /** A drained uninterrupted run visits the start list of every leg. */
  lemma {:induction false} StartIsCovered(
      legs: seq<Leg>, ids: set<string>, start: seq<string>, plan: Plan, u: Leg, i: nat, r: string)
    requires Chain(legs, ids, start, plan) && i < |legs|
    requires Uninterrupted(u, ids, start, plan) && u.p.stop.None?
    requires r in legs[i].start
    ensures r in u.p.visited
  {
    if i == 0 {
      assert Pending([], u.p, r);
    } else {
      var before := legs[i - 1];
      assert Resumes(before, legs[i]);
      forall y | y in before.start
        ensures y in u.p.visited
      {
        StartIsCovered(legs, ids, start, plan, u, i - 1, y);
      }
      SavedAreReached(before, ids, plan, r);
      LegIsCovered(before, ids, start, plan, u, r);
    }
  }

  /** A drained uninterrupted run executes all that the legs executed, and all that they left over. */
  lemma UninterruptedCovers(
      legs: seq<Leg>, ids: set<string>, start: seq<string>, plan: Plan, u: Leg, i: nat, x: string)
    requires Chain(legs, ids, start, plan) && i < |legs|
    requires Uninterrupted(u, ids, start, plan) && u.p.stop.None?
    requires Pending(legs[i].rest, legs[i].p, x) && x in ids
    ensures x in Ids(u.p.trace)
  {
    forall r | r in legs[i].start
      ensures r in u.p.visited
    {
      StartIsCovered(legs, ids, start, plan, u, i, r);
    }
    assert Reached(legs[i].p.trace, legs[i].start, x);
    LegIsCovered(legs[i], ids, start, plan, u, x);
  }

  // ---- What was planned ----

  /** A drained leg visits all that is planned from its start. */
  lemma {:induction false} DrainedVisitsPath(leg: Leg, ids: set<string>, plan: Plan, path: seq<string>, i: nat)
    requires Walked(leg, ids, plan) && leg.Drained()
    requires PlanPath(plan, ids, leg.start, path) && i < |path|
    ensures path[i] in leg.p.visited
  {
    if i == 0 {
      DrainedHasStart(leg, ids, plan, path[0]);
    } else {
      var a := path[i - 1];
      DrainedVisitsPath(leg, ids, plan, path, i - 1);
      assert a in ids && path[i - 1 + 1] in plan.next(a);
      VisitedIsExecuted(leg, ids, plan, a);
      LegFollowsPlan(leg, ids, plan, a, path[i]);
    }
  }

  /** What was reached along chosen successors was planned. */
  lemma ReachedIsPlanned(leg: Leg, ids: set<string>, plan: Plan, x: string)
    requires Walked(leg, ids, plan) && Reached(leg.p.trace, leg.start, x)
    ensures PlanReaches(plan, ids, leg.start, x)
  {
    var path :| IsPath(leg.p.trace, leg.start, path) && path[|path| - 1] == x;
    forall i | 0 <= i < |path| - 1
      ensures path[i] in ids && path[i + 1] in plan.next(path[i])
    {
      assert Chose(leg.p.trace, path[i], path[i + 1]);
      var e :| e in leg.p.trace && e.id == path[i] && path[i + 1] in e.outcome.Next();
      ExecutedGoOn(leg, ids, plan, e);
      assert path[i] in Ids(leg.p.trace);
      ExecutedIsANode(leg, ids, plan, path[i]);
    }
    assert PlanPath(plan, ids, leg.start, path);
  }

  /** A drained leg executes exactly the graph nodes planned from its start list. */
  lemma DrainedRunsThePlan(leg: Leg, ids: set<string>, plan: Plan, x: string)
    requires Walked(leg, ids, plan) && leg.Drained()
    ensures x in Ids(leg.p.trace) <==> x in ids && PlanReaches(plan, ids, leg.start, x)
  {
    if x in Ids(leg.p.trace) {
      ExecutedIsANode(leg, ids, plan, x);
      assert Pending([], leg.p, x);
      ReachedIsPlanned(leg, ids, plan, x);
    }
    if x in ids && PlanReaches(plan, ids, leg.start, x) {
      var path :| PlanPath(plan, ids, leg.start, path) && path[|path| - 1] == x;
      DrainedVisitsPath(leg, ids, plan, path, |path| - 1);
      VisitedIsExecuted(leg, ids, plan, x);
    }
  }

  lemma ExecutedByAPausedLegOrTheLast(legs: seq<Leg>, x: string)
    requires legs != []
    ensures Executed(legs, x) <==> Executed(legs[..|legs| - 1], x) || x in Ids(legs[|legs| - 1].p.trace)
  {
    var paused, last := legs[..|legs| - 1], legs[|legs| - 1];
    assert legs == paused + [last];
    if Executed(legs, x) {
      var leg :| leg in legs && x in Ids(leg.p.trace);
      assert leg in paused || leg == last;
    }
    if Executed(paused, x) {
      var leg :| leg in paused && x in Ids(leg.p.trace);
      assert leg in legs;
    }
    assert last in legs;
  }

  /** The condition at the last pause decides whether all left-overs will have been done in the end. */
  lemma NothingLostDecides(legs: seq<Leg>, ids: set<string>, start: seq<string>, plan: Plan)
    requires Chain(legs, ids, start, plan)
    ensures NothingLost(plan, ids, legs[..|legs| - 1], legs[|legs| - 1].start) <==> LeftoverDone(legs, ids)
  {
    var paused, last := legs[..|legs| - 1], legs[|legs| - 1];
    assert legs == paused + [last];
    forall x | x in ids
      ensures Executed(legs, x) <==> Executed(paused, x) || PlanReaches(plan, ids, last.start, x)
    {
      ExecutedByAPausedLegOrTheLast(legs, x);
      DrainedRunsThePlan(last, ids, plan, x);
    }
  }

  /**
   A pause also forgets what was visited: no node of an earlier leg runs in the last one if and
   only if none of them is planned below the successors it starts from.
   */
  lemma RunsOnceAcrossThePause(legs: seq<Leg>, ids: set<string>, start: seq<string>, plan: Plan, leg: Leg)
    requires Chain(legs, ids, start, plan) && leg in legs[..|legs| - 1]
    ensures Ids(leg.p.trace) !! Ids(legs[|legs| - 1].p.trace)
       <==> forall x :: x in Ids(leg.p.trace) ==> !PlanReaches(plan, ids, legs[|legs| - 1].start, x)
  {
    var last := legs[|legs| - 1];
    forall x | x in Ids(leg.p.trace)
      ensures x in Ids(last.p.trace) <==> PlanReaches(plan, ids, last.start, x)
    {
      ExecutedIsANode(leg, ids, plan, x);
      DrainedRunsThePlan(last, ids, plan, x);
    }
  }

  // ---- The main result ----

  /**
   A run executed in any number of legs executes the same nodes as the run that goes straight
   through, for any fixed choice of successors per node, if and only if, at the last pause,
   every graph node that some pause left on the stack was executed or lies below the
   successors saved; so when no pause leaves anything.
   */
  lemma PauseThenResumeCoversTheRun(
      legs: seq<Leg>, ids: set<string>, start: seq<string>, plan: Plan, u: Leg)
    requires Chain(legs, ids, start, plan)
    requires Uninterrupted(u, ids, start, plan)
    ensures NothingLost(plan, ids, legs[..|legs| - 1], legs[|legs| - 1].start)
       <==> u.p.stop.None? && forall x :: x in Ids(u.p.trace) <==> Executed(legs, x)
    ensures (forall leg :: leg in legs ==> leg.rest == []) ==>
              NothingLost(plan, ids, legs[..|legs| - 1], legs[|legs| - 1].start)
  {
    NothingLostDecides(legs, ids, start, plan);
    if LeftoverDone(legs, ids) {
      UninterruptedDrains(legs, ids, start, plan, u);
      forall x | x in Ids(u.p.trace)
        ensures Executed(legs, x)
      {
        UninterruptedStaysInside(legs, ids, start, plan, u, x);
      }
    }
    if u.p.stop.None? {
      ExecutedAndLeftAreCovered(legs, ids, start, plan, u);
    }
  }

  lemma ExecutedAndLeftAreCovered(legs: seq<Leg>, ids: set<string>, start: seq<string>, plan: Plan, u: Leg)
    requires Chain(legs, ids, start, plan)
    requires Uninterrupted(u, ids, start, plan) && u.p.stop.None?
    ensures forall x :: Executed(legs, x) ==> x in Ids(u.p.trace)
    ensures forall leg, x :: leg in legs && x in leg.rest && x in ids ==> x in Ids(u.p.trace)
  {
    forall x | Executed(legs, x)
      ensures x in Ids(u.p.trace)
    {
      var leg :| leg in legs && x in Ids(leg.p.trace);
      var i :| 0 <= i < |legs| && legs[i] == leg;
      ExecutedIsANode(leg, ids, plan, x);
      UninterruptedCovers(legs, ids, start, plan, u, i, x);
    }
    forall leg, x | leg in legs && x in leg.rest && x in ids
      ensures x in Ids(u.p.trace)
    {
      var i :| 0 <= i < |legs| && legs[i] == leg;
      UninterruptedCovers(legs, ids, start, plan, u, i, x);
    }
  }

  // ---- Segments as legs ----

  lemma SegmentEnds(env: Env, g: Graph, start: seq<string>, ctx: Context, p: Progress, rest: seq<string>)
    requires (p, rest) == Segment(env, g, start, ctx)
    ensures Inv(env, g, start, rest, p)
    ensures p.stop.None? ==> rest == []
    ensures (forall k: nat :: env.poll(k) == Proceed) ==> !Polled(p)
  {
    SegmentInv(env, g, start, ctx);
    if forall k: nat :: env.poll(k) == Proceed {
      NeverPolledAway(env, g, start, Fresh(ctx));
    }
  }
}
