/** What every execution of a run promises about the writes it makes. */
module RunLaws {
  import opened Wrappers
  import opened JsonValues
  import opened Graphs
  import opened NodeExecution
  import opened Executor
  import opened Walks
  import opened Secrets
  import opened Runs
  import opened NodeLaws

  function Outcomes(log: seq<Event>): nat {
    if log == [] then 0 else (if log[0].IsOutcome() then 1 else 0) + Outcomes(log[1..])
  }

  lemma {:induction false} OutcomesConcat(a: seq<Event>, b: seq<Event>)
    ensures Outcomes(a + b) == Outcomes(a) + Outcomes(b)
  {
    if a == [] {
      assert a + b == b;
    } else {
      assert (a + b)[1..] == a[1..] + b;
      OutcomesConcat(a[1..], b);
    }
  }

  lemma {:induction false} NoOutcomes(log: seq<Event>)
    requires forall e :: e in log ==> !e.IsOutcome()
    ensures Outcomes(log) == 0
  {
    if log != [] {
      assert log[0] in log;
      assert forall e :: e in log[1..] ==> e in log;
      NoOutcomes(log[1..]);
    }
  }

  predicate WritesSucceed(host: Host) {
    Retried(host.recordEvents) && Retried(host.deadLetter) && Retried(host.complete) && Retried(host.pause)
  }

  /** The log ends in its only outcome, of the kind the result names. */
  predicate EndsInOneOutcome(r: RunResult, log: seq<Event>) {
    && (r == Finished || r == Paused)
    && log != []
    && Outcomes(log) == 1
    && log[|log| - 1].IsOutcome()
    && (r == Paused <==> log[|log| - 1].PauseWritten?)
  }

  /** The writes after the nodes have run hold at most one outcome, at their very end. */
  lemma ConcludeWritesOneOutcome(host: Host, snapshot: Value, p: Progress)
    ensures
      var (r, writes) := Conclude(host, snapshot, p);
      && Outcomes(writes) <= 1
      && (r == Finished || r == Paused ==> EndsInOneOutcome(r, writes))
      && (WritesSucceed(host) ==> r == Finished || r == Paused)
  {
    var (r, writes) := Conclude(host, snapshot, p);
    match p.stop
    case Some(NodeFailed(message)) => DeadLetterThenComplete(host, message);
    case Some(BadResumeTime) => DeadLetterThenComplete(host, BAD_RESUME);
    case _ =>
  }

  lemma DeadLetterThenComplete(host: Host, message: string)
    ensures
      var (r, done) := CompleteAs(host, Failed, Some(message));
      var writes := DeadLetterIf(host, message) + done;
      && Outcomes(writes) <= 1
      && (r == Finished ==> EndsInOneOutcome(r, writes))
  {
    var (r, done) := CompleteAs(host, Failed, Some(message));
    OutcomesConcat(DeadLetterIf(host, message), done);
    if r == Finished {
      var writes := DeadLetterIf(host, message) + done;
      assert writes[|writes| - 1] == done[0];
    }
  }

  lemma AfterWalkWritesOneOutcome(host: Host, snapshot: Value, p: Progress)
    ensures
      var (r, log) := AfterWalk(host, snapshot, p);
      && Outcomes(log) <= 1
      && (r == Finished || r == Paused ==> EndsInOneOutcome(r, log))
      && (WritesSucceed(host) ==> r == Finished || r == Paused)
  {
    var (r, writes) := Conclude(host, snapshot, p);
    ConcludeWritesOneOutcome(host, snapshot, p);
    NoOutcomes(RanEvents(p.trace));
    OutcomesConcat(RanEvents(p.trace), writes);
  }

  lemma CompleteAsWritesOneOutcome(host: Host, status: FinalStatus, error: Option<string>)
    ensures
      var (r, log) := CompleteAs(host, status, error);
      && Outcomes(log) <= 1
      && (r == Finished || r == Paused ==> EndsInOneOutcome(r, log))
      && (Retried(host.complete) ==> r == Finished)
  {
  }

  /**
   One execution makes exactly one outcome write, as its very last act, whenever the
   persistence calls succeed; it never makes two, whatever fails; and a run reported
   as paused or finished has made one.
   */
  lemma SingleOutcome(host: Host, stored: Value, order: seq<string>, r: RunResult, log: seq<Event>)
    requires CanRun(host, stored, order)
    requires (r, log) == RunMeaning(host, stored, order)
    ensures Outcomes(log) <= 1
    ensures WritesSucceed(host) ==> EndsInOneOutcome(r, log)
    ensures r == Finished || r == Paused ==> EndsInOneOutcome(r, log)
  {
    var snapshot := Hydrate(stored, host.secrets);
    if host.hydration.Some? {
      CompleteAsWritesOneOutcome(host, Failed, host.hydration);
    } else if Retried(host.recordEvents) {
      if WellFormed(snapshot) {
        AfterWalkWritesOneOutcome(host, snapshot, Walk(host, snapshot, order).0);
      } else {
        CompleteAsWritesOneOutcome(host, Failed, Some("Invalid snapshot"));
      }
    }
  }

  /** A run whose secrets, events and snapshot are in order comes down to its walk. */
  ghost predicate Healthy(host: Host, stored: Value, snapshot: Value, g: Graph, order: seq<string>) {
    && host.hydration.None? && Retried(host.recordEvents)
    && snapshot == Hydrate(stored, host.secrets)
    && SnapshotGraph(snapshot) == Some(g) && IsOrder(order, g)
  }

  /** What the final state of a walk says about its stop and about every node it executed. */
  lemma WalkExplained(host: Host, snapshot: Value, g: Graph, order: seq<string>, p: Progress)
    requires SnapshotGraph(snapshot) == Some(g) && IsOrder(order, g)
    requires p == Walk(host, snapshot, order).0
    ensures StopExplained(EnvOf(host, g), p) && Faithful(EnvOf(host, g), g, p.trace)
  {
    SegmentInv(EnvOf(host, g), g, StartList(snapshot, g, order), InitialContext(snapshot, g, order));
  }

  lemma SucceededMeansNoStop(host: Host, snapshot: Value, p: Progress)
    requires Retried(host.complete)
    ensures Completed(Succeeded, None) in AfterWalk(host, snapshot, p).1 <==> p.stop.None?
  {
  }

  /**
   "succeeded" is written exactly when the walk drained with nothing to stop it, and
   then every node that reported an error had kind exactly "action" and stopOnError false.
   */
  lemma SucceededMeansDrained(host: Host, stored: Value, snapshot: Value, g: Graph, order: seq<string>, p: Progress)
    requires Healthy(host, stored, snapshot, g, order) && Retried(host.complete)
    requires p == Walk(host, snapshot, order).0
    ensures Completed(Succeeded, None) in RunMeaning(host, stored, order).1 <==> p.stop.None?
    ensures p.stop.None? ==> forall e, message :: e in p.trace && Reports(host.handlers, e, message) ==> MayFail(e.node)
  {
    WalkExplained(host, snapshot, g, order, p);
    SucceededMeansNoStop(host, snapshot, p);
    forall e, message | e in p.trace && p.stop.None? && Reports(host.handlers, e, message)
      ensures MayFail(e.node)
    {
      ErrorsStopOrPass(host, snapshot, g, order, e, message);
      NothingStopped(EnvOf(host, g), p, e);
    }
  }

  lemma NothingStopped(env: Env, p: Progress, e: Entry)
    requires StopExplained(env, p) && p.stop.None? && e in p.trace
    ensures e.outcome.GoesOn()
  {
  }

  lemma NodeFailureWrites(host: Host, snapshot: Value, p: Progress, message: string)
    requires WritesSucceed(host) && p.stop == Some(NodeFailed(message))
    ensures AfterWalk(host, snapshot, p)
         == (Finished, RanEvents(p.trace) + [DeadLettered(message), Completed(Failed, Some(message))])
  {
    assert CompleteAs(host, Failed, Some(message)) == (Finished, [Completed(Failed, Some(message))]);
    assert [DeadLettered(message)] + [Completed(Failed, Some(message))]
        == [DeadLettered(message), Completed(Failed, Some(message))];
  }

  /**
   An error of a node that may not fail makes it the last node of the run: the run is marked
   failed with that error, right after a dead letter carrying it.
   */
  lemma NodeErrorLeavesADeadLetter(
      host: Host, stored: Value, snapshot: Value, g: Graph, order: seq<string>, p: Progress, e: Entry, message: string,
      log: seq<Event>)
    requires Healthy(host, stored, snapshot, g, order) && WritesSucceed(host)
    requires p == Walk(host, snapshot, order).0 && log == RunMeaning(host, stored, order).1
    requires e in p.trace && Reports(host.handlers, e, message) && !MayFail(e.node)
    ensures p.trace[|p.trace| - 1] == e
    ensures log == RanEvents(p.trace) + [DeadLettered(message), Completed(Failed, Some(message))]
  {
    WalkExplained(host, snapshot, g, order, p);
    ErrorsStopOrPass(host, snapshot, g, order, e, message);
    FatalIsLast(EnvOf(host, g), p, e);
    NodeFailureWrites(host, snapshot, p, message);
  }

  lemma FatalIsLast(env: Env, p: Progress, e: Entry)
    requires StopExplained(env, p) && e in p.trace && e.outcome.Fatal?
    ensures p.trace[|p.trace| - 1] == e && p.stop == Some(NodeFailed(e.outcome.message))
  {
  }

  lemma StopOfPause(env: Env, o: Outcome, stop: Option<Stop>)
    requires stop == StopOf(env, o) && stop.Some? && stop.value.PausedUntil?
    ensures o.Suspended? && stop.value == PausedUntil(o.resumeAt, o.next) && env.storable(o.resumeAt)
  {
  }

  lemma SuspendedEntry(host: Host, g: Graph, e: Entry)
    requires e.outcome == EnvOf(host, g).exec(e.id, e.node, e.before) && e.outcome.Suspended?
    ensures IsDelay(e.node.kind) && host.handlers.delay(e.node).Wait?
    ensures host.handlers.delay(e.node).resumeAt == e.outcome.resumeAt
    ensures e.outcome.next == g.Targets(e.id)
  {
  }

  lemma PauseIsLast(env: Env, g: Graph, p: Progress)
    requires StopExplained(env, p) && Faithful(env, g, p.trace)
    requires p.stop.Some? && p.stop.value.PausedUntil?
    ensures p.trace != []
    ensures
      var last := p.trace[|p.trace| - 1];
      p.stop == StopOf(env, last.outcome) && last.outcome == env.exec(last.id, last.node, last.before)
  {
    assert p.trace[|p.trace| - 1] in p.trace;
  }

  /** The node waits until the stop's resume time, and its outgoing targets are what the stop saves. */
  predicate WaitsAt(host: Host, g: Graph, e: Entry, stop: Stop)
    requires stop.PausedUntil?
  {
    && IsDelay(e.node.kind)
    && host.handlers.delay(e.node).Wait? && host.handlers.delay(e.node).resumeAt == stop.resumeAt
    && host.storable(stop.resumeAt)
    && stop.next == g.Targets(e.id)
  }

  /** A walk stops to pause only at a delay node, its last, whose plan is to wait until a storable time. */
  lemma PausedMeansDelay(host: Host, snapshot: Value, g: Graph, order: seq<string>, p: Progress)
    requires SnapshotGraph(snapshot) == Some(g) && IsOrder(order, g)
    requires p == Walk(host, snapshot, order).0
    requires p.stop.Some? && p.stop.value.PausedUntil?
    ensures p.trace != [] && WaitsAt(host, g, p.trace[|p.trace| - 1], p.stop.value)
  {
    WalkExplained(host, snapshot, g, order, p);
    PauseIsLast(EnvOf(host, g), g, p);
    var last := p.trace[|p.trace| - 1];
    StopOfPause(EnvOf(host, g), last.outcome, p.stop);
    SuspendedEntry(host, g, last);
  }

  lemma HealthyIsItsWalk(host: Host, stored: Value, snapshot: Value, g: Graph, order: seq<string>, p: Progress)
    requires Healthy(host, stored, snapshot, g, order) && p == Walk(host, snapshot, order).0
    ensures RunMeaning(host, stored, order) == AfterWalk(host, snapshot, p)
  {
  }

  lemma PolledWrites(host: Host, snapshot: Value, p: Progress)
    requires Retried(host.complete) && Polled(p)
    ensures AfterWalk(host, snapshot, p) ==
      (Finished, RanEvents(p.trace)
                 + [Completed(Canceled, if p.stop == Some(SawCancel) then None else Some("Worker lost lease during execution"))])
  {
  }

  /** A run whose poll finds it canceled, or its lease lost, is marked canceled, whatever it still had to do. */
  lemma PolledAwayMeansCanceled(
      host: Host, stored: Value, snapshot: Value, g: Graph, order: seq<string>, p: Progress, log: seq<Event>)
    requires Healthy(host, stored, snapshot, g, order) && Retried(host.complete)
    requires p == Walk(host, snapshot, order).0 && log == RunMeaning(host, stored, order).1
    requires p.pops > 0 && host.poll(p.pops - 1) != Proceed
    ensures log == RanEvents(p.trace)
                 + [Completed(Canceled, if host.poll(p.pops - 1) == CancelSeen then None
                                        else Some("Worker lost lease during execution"))]
  {
    PollsEndTheWalk(host, snapshot, g, order, p);
    HealthyIsItsWalk(host, stored, snapshot, g, order, p);
    PolledWrites(host, snapshot, p);
  }

  lemma SuspendedIsLast(env: Env, p: Progress, e: Entry, at: int)
    requires StopExplained(env, p) && e in p.trace && e.outcome.Suspended? && e.outcome.resumeAt == at
    ensures p.trace[|p.trace| - 1] == e
    ensures p.stop == if env.storable(at) then Some(PausedUntil(at, e.outcome.next)) else Some(BadResumeTime)
  {
  }

  const UNSTORABLE := "Failed to convert resume_at to OffsetDateTime"

  lemma SuspensionWrites(host: Host, snapshot: Value, p: Progress, at: int, next: seq<string>)
    requires WritesSucceed(host)
    requires p.stop == if host.storable(at) then Some(PausedUntil(at, next)) else Some(BadResumeTime)
    ensures AfterWalk(host, snapshot, p) ==
      if host.storable(at) then (Paused, RanEvents(p.trace) + [PauseWritten(PausedSnapshot(host, snapshot, p.context, next, at), at)])
      else (Finished, RanEvents(p.trace) + [DeadLettered(UNSTORABLE), Completed(Failed, Some(UNSTORABLE))])
  {
    assert [DeadLettered(UNSTORABLE)] + [Completed(Failed, Some(UNSTORABLE))]
        == [DeadLettered(UNSTORABLE), Completed(Failed, Some(UNSTORABLE))];
  }

  /**
   A delay node that waits is the last node of the execution: the run is paused until then with
   the node's targets saved, or, when the time cannot be stored, dead-lettered and marked failed.
   */
  lemma WaitingPausesOrFails(
      host: Host, stored: Value, snapshot: Value, g: Graph, order: seq<string>, p: Progress, e: Entry, o: Value, at: int,
      next: seq<string>, log: seq<Event>)
    requires Healthy(host, stored, snapshot, g, order) && WritesSucceed(host)
    requires p == Walk(host, snapshot, order).0 && log == RunMeaning(host, stored, order).1
    requires e in p.trace && Delays(e.node.kind) && host.handlers.delay(e.node) == Wait(o, at)
    requires next == g.Targets(e.id)
    ensures p.trace[|p.trace| - 1] == e
    ensures log ==
      if host.storable(at) then RanEvents(p.trace) + [PauseWritten(PausedSnapshot(host, snapshot, p.context, next, at), at)]
      else RanEvents(p.trace) + [DeadLettered(UNSTORABLE), Completed(Failed, Some(UNSTORABLE))]
  {
    WaitStops(host, snapshot, g, order, p, e, o, at, next);
    HealthyIsItsWalk(host, stored, snapshot, g, order, p);
    SuspensionWrites(host, snapshot, p, at, next);
  }

  lemma WaitStops(
      host: Host, snapshot: Value, g: Graph, order: seq<string>, p: Progress, e: Entry, o: Value, at: int, next: seq<string>)
    requires SnapshotGraph(snapshot) == Some(g) && IsOrder(order, g) && p == Walk(host, snapshot, order).0
    requires e in p.trace && Delays(e.node.kind) && host.handlers.delay(e.node) == Wait(o, at)
    requires next == g.Targets(e.id)
    ensures p.trace[|p.trace| - 1] == e
    ensures p.stop == if host.storable(at) then Some(PausedUntil(at, next)) else Some(BadResumeTime)
  {
    WalkExplained(host, snapshot, g, order, p);
    DelayWaitsAsPlanned(host, snapshot, g, order, e);
    SuspendedIsLast(EnvOf(host, g), p, e, at);
    TargetsAreAll(g, e.id);
    SameTargets(g.Outgoing(e.id), e.outcome.next, next);
  }

  lemma SameTargets(es: seq<Edge>, a: seq<string>, b: seq<string>)
    requires AllTargets(es, a) && AllTargets(es, b)
    ensures a == b
  {
  }
}
