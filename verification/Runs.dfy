/**
 `execute_run` as a whole (backend/src/engine/executor.rs): reading the starting
 context and start list from the snapshot, walking the graph, and writing the
 outcome of the run. Every persistence call is retried up to three times.
 */
module Runs {
  import opened Wrappers
  import opened JsonValues
  import opened Graphs
  import opened NodeExecution
  import opened Executor
  import opened Walks
  import opened Secrets

  // ---- Set-up from the snapshot ----

  /** An order in which the node hash map may be iterated. */
  ghost predicate IsOrder(order: seq<string>, g: Graph) {
    && (forall id :: id in order <==> id in g.nodes)
    && (forall i, j :: 0 <= i < j < |order| ==> order[i] != order[j])
  }

  /** The trigger nodes among `order`, in that order. */
  function Triggers(g: Graph, order: seq<string>): (r: seq<string>)
    requires forall id :: id in order ==> id in g.nodes
    ensures forall id :: id in r <==> id in order && g.nodes[id].kind == "trigger"
  {
    if order == [] then []
    else (if g.nodes[order[0]].kind == "trigger" then [order[0]] else []) + Triggers(g, order[1..])
  }

  /** The node whose key receives the trigger payload: the named start node if it is a trigger, else any trigger. */
  function TriggerNode(snapshot: Value, g: Graph, order: seq<string>): Option<Node>
    requires forall id :: id in order ==> id in g.nodes
  {
    var named := snapshot.GetString("_start_from_node");
    if named.Some? && named.value in g.nodes && g.nodes[named.value].kind == "trigger"
    then Some(g.nodes[named.value])
    else
      var ts := Triggers(g, order);
      if ts == [] then None else Some(g.nodes[ts[0]])
  }

  function TriggerKey(snapshot: Value, g: Graph, order: seq<string>): string
    requires forall id :: id in order ==> id in g.nodes
  {
    match TriggerNode(snapshot, g, order)
    case Some(node) => PrimaryKey(node)
    case None => "trigger"
  }

  function ResumeContext(snapshot: Value): Context {
    match snapshot.GetObject("_resume_context") case Some(m) => m case None => map[]
  }

  function InitialContext(snapshot: Value, g: Graph, order: seq<string>): Context
    requires forall id :: id in order ==> id in g.nodes
  {
    var ctx := ResumeContext(snapshot);
    match snapshot.Get("_trigger_context")
    case None => ctx
    case Some(payload) =>
      var key := TriggerKey(snapshot, g, order);
      if key in ctx then ctx else ctx[key := payload]
  }

  function Strings(vs: seq<Value>): seq<string> {
    if vs == [] then []
    else (if vs[0].String? then [vs[0].str] else []) + Strings(vs[1..])
  }

  function NamedStart(snapshot: Value): seq<string> {
    match snapshot.GetString("_start_from_node") case Some(id) => [id] case None => []
  }

  /** The initial stack. */
  function StartList(snapshot: Value, g: Graph, order: seq<string>): seq<string>
    requires forall id :: id in order ==> id in g.nodes
  {
    match snapshot.GetArray("_resume_from_nodes")
    case Some(items) =>
      if Strings(items) != [] then Strings(items) else NamedStart(snapshot)
    case None =>
      if NamedStart(snapshot) != [] then NamedStart(snapshot)
      else if Triggers(g, order) != [] then Triggers(g, order)
      else if order != [] then [order[0]] else []
  }

  // ---- The world around a run ----

  /** Whether the n-th attempt (from 1) of a persistence call succeeds. */
  type Attempts = nat -> bool

  datatype Host = Host(
    handlers: Handlers,
    poll: nat -> Poll,
    storable: int -> bool,
    stamp: int -> string,            // RFC 3339 text of a time
    hydration: Option<string>,       // the error of loading the secrets, if that fails
    secrets: SecretStore,
    recordEvents: Attempts,
    deadLetter: Attempts,
    complete: Attempts,
    pause: Attempts)

  function EnvOf(host: Host, g: Graph): Env {
    Env((id: string, node: Node, ctx: Context) => Execute(host.handlers, g, id, node, ctx),
        (node: Node, ctx: Context, outputs: Value) => Record(host.handlers, node, ctx, outputs),
        host.poll,
        host.storable)
  }

  const MAX_ATTEMPTS: nat := 3
  const INITIAL_BACKOFF_MS: nat := 100

  predicate Retried(ok: Attempts) {
    ok(1) || ok(2) || ok(3)
  }

  /** `retry_with_backoff`: stops at the first success, gives up after the third failure. */
  method RetryWithBackoff(ok: Attempts) returns (done: bool, attempts: nat, slept: nat)
    ensures done <==> Retried(ok)
    ensures 1 <= attempts <= MAX_ATTEMPTS
    ensures done ==> ok(attempts)
    ensures forall k :: 1 <= k < attempts ==> !ok(k)
    ensures !done ==> attempts == MAX_ATTEMPTS
    ensures slept == INITIAL_BACKOFF_MS * (if attempts == 1 then 0 else if attempts == 2 then 1 else 3)
  {
    attempts, slept := 0, 0;
    var backoff := INITIAL_BACKOFF_MS;
    while true
      invariant attempts < MAX_ATTEMPTS
      invariant forall k :: 1 <= k <= attempts ==> !ok(k)
      invariant backoff == INITIAL_BACKOFF_MS * (if attempts == 0 then 1 else if attempts == 1 then 2 else 4)
      invariant slept == backoff - INITIAL_BACKOFF_MS
      decreases MAX_ATTEMPTS - attempts
    {
      attempts := attempts + 1;
      if ok(attempts) {
        return true, attempts, slept;
      }
      if attempts >= MAX_ATTEMPTS {
        return false, attempts, slept;
      }
      slept := slept + backoff;
      backoff := backoff * 2;
    }
  }

  datatype FinalStatus = Succeeded | Failed | Canceled

  /** What a run leaves behind, in order: the nodes it ran and the writes that took effect. */
  datatype Event =
    | Ran(id: string)
    | DeadLettered(message: string)
    | Completed(status: FinalStatus, error: Option<string>)
    | PauseWritten(snapshot: Value, resumeAt: int)
  {
    predicate IsOutcome() {
      Completed? || PauseWritten?
    }
  }

  datatype Operation = RecordRunEvent | InsertDeadLetter | CompleteRun | PauseRun

  datatype RunResult = Finished | Paused | PersistenceFailed(operation: Operation)

  /** The snapshot written at a pause. */
  function PausedSnapshot(host: Host, snapshot: Value, ctx: Context, next: seq<string>, at: int): Value {
    match snapshot
    case Object(fields) =>
      var f := fields["_resume_context" := Object(ctx)]
                     ["_resume_from_nodes" := Array(seq(|next|, i requires 0 <= i < |next| => String(next[i])))];
      var f' := if next == [] then f else f["_start_from_node" := String(next[0])];
      Object(f'["_resume_at" := String(host.stamp(at))])
    case _ => snapshot
  }

  const LOST_LEASE := "Worker lost lease during execution"
  const BAD_RESUME := "Failed to convert resume_at to OffsetDateTime"

  /** The writes a stop calls for, and the result they give. */
  function Conclude(host: Host, snapshot: Value, p: Progress): (RunResult, seq<Event>) {
    match p.stop
    case None => CompleteAs(host, Succeeded, None)
    case Some(SawCancel) => CompleteAs(host, Canceled, None)
    case Some(LostLease) => CompleteAs(host, Canceled, Some(LOST_LEASE))
    case Some(PausedUntil(at, next)) =>
      if Retried(host.pause) then (Paused, [PauseWritten(PausedSnapshot(host, snapshot, p.context, next, at), at)])
      else (PersistenceFailed(PauseRun), [])
    case Some(BadResumeTime) =>
      var (r, done) := CompleteAs(host, Failed, Some(BAD_RESUME));
      (r, DeadLetterIf(host, BAD_RESUME) + done)
    case Some(NodeFailed(message)) =>
      var (r, done) := CompleteAs(host, Failed, Some(message));
      (if Retried(host.deadLetter) then r else PersistenceFailed(InsertDeadLetter), DeadLetterIf(host, message) + done)
  }

  function CompleteAs(host: Host, status: FinalStatus, error: Option<string>): (RunResult, seq<Event>) {
    if Retried(host.complete) then (Finished, [Completed(status, error)]) else (PersistenceFailed(CompleteRun), [])
  }

  function DeadLetterIf(host: Host, message: string): seq<Event> {
    if Retried(host.deadLetter) then [DeadLettered(message)] else []
  }

  function RanEvents(trace: seq<Entry>): seq<Event> {
    seq(|trace|, i requires 0 <= i < |trace| => Ran(trace[i].id))
  }

  /** The walk a well-formed snapshot asks for. */
  ghost function Walk(host: Host, snapshot: Value, order: seq<string>): (Progress, seq<string>)
    requires WellFormed(snapshot) && IsOrder(order, SnapshotGraph(snapshot).value)
  {
    var g := SnapshotGraph(snapshot).value;
    Segment(EnvOf(host, g), g, StartList(snapshot, g, order), InitialContext(snapshot, g, order))
  }

  /** What one execution of a stored run amounts to: its secrets are filled in first. */
  ghost function RunMeaning(host: Host, stored: Value, order: seq<string>): (RunResult, seq<Event>)
    requires CanRun(host, stored, order)
  {
    var snapshot := Hydrate(stored, host.secrets);
    if host.hydration.Some? then CompleteAs(host, Failed, host.hydration)
    else if !Retried(host.recordEvents) then (PersistenceFailed(RecordRunEvent), [])
    else if !WellFormed(snapshot) then CompleteAs(host, Failed, Some("Invalid snapshot"))
    else AfterWalk(host, snapshot, Walk(host, snapshot, order).0)
  }

  /** `order` enumerates the nodes of the hydrated snapshot, if it has any. */
  ghost predicate CanRun(host: Host, stored: Value, order: seq<string>) {
    var snapshot := Hydrate(stored, host.secrets);
    WellFormed(snapshot) ==> IsOrder(order, SnapshotGraph(snapshot).value)
  }

  function AfterWalk(host: Host, snapshot: Value, p: Progress): (RunResult, seq<Event>) {
    var (r, writes) := Conclude(host, snapshot, p);
    (r, RanEvents(p.trace) + writes)
  }

  method CompleteRunWithRetry(host: Host, status: FinalStatus, error: Option<string>) returns (r: RunResult, log: seq<Event>)
    ensures (r, log) == CompleteAs(host, status, error)
  {
    var ok, _, _ := RetryWithBackoff(host.complete);
    if ok { return Finished, [Completed(status, error)]; }
    return PersistenceFailed(CompleteRun), [];
  }

  method ConcludeRun(host: Host, snapshot: Value, p: Progress) returns (r: RunResult, writes: seq<Event>)
    ensures (r, writes) == Conclude(host, snapshot, p)
  {
    match p.stop
    case None =>
      r, writes := CompleteRunWithRetry(host, Succeeded, None);
    case Some(SawCancel) =>
      r, writes := CompleteRunWithRetry(host, Canceled, None);
    case Some(LostLease) =>
      r, writes := CompleteRunWithRetry(host, Canceled, Some(LOST_LEASE));
    case Some(PausedUntil(at, next)) =>
      var ok, _, _ := RetryWithBackoff(host.pause);
      if !ok { return PersistenceFailed(PauseRun), []; }
      return Paused, [PauseWritten(PausedSnapshot(host, snapshot, p.context, next, at), at)];
    case Some(BadResumeTime) =>
      var ok, _, _ := RetryWithBackoff(host.deadLetter);
      var done;
      r, done := CompleteRunWithRetry(host, Failed, Some(BAD_RESUME));
      writes := (if ok then [DeadLettered(BAD_RESUME)] else []) + done;
    case Some(NodeFailed(message)) =>
      var ok, _, _ := RetryWithBackoff(host.deadLetter);
      var done;
      r, done := CompleteRunWithRetry(host, Failed, Some(message));
      if !ok { return PersistenceFailed(InsertDeadLetter), [] + done; }
      writes := [DeadLettered(message)] + done;
  }

  lemma RanPush(trace: seq<Entry>, t: seq<Entry>, id: string)
    requires |t| == |trace| + 1 && t[..|trace|] == trace && t[|trace|].id == id
    ensures RanEvents(t) == RanEvents(trace) + [Ran(id)]
  {
    assert forall i :: 0 <= i < |trace| ==> t[i] == t[..|trace|][i];
  }

  /**
   The while loop of `execute_run`, up to and including the write of the outcome. It
   terminates on every graph, cyclic ones included, and logs each node and write as it happens.
   */
  method RunLoop(host: Host, snapshot: Value, g: Graph, start: seq<string>, ctx: Context)
      returns (r: RunResult, log: seq<Event>, p: Progress)
    ensures p == Machine(EnvOf(host, g), g, start, Fresh(ctx)).0
    ensures p == Descend(EnvOf(host, g), g, Reverse(start), Fresh(ctx))
    ensures (r, log) == AfterWalk(host, snapshot, p)
  {
    StackIsRecursion(EnvOf(host, g), g, start, Fresh(ctx));
    var stack, writes := start, [];
    p, log := Fresh(ctx), [];
    while stack != []
      invariant p.stop.None? && log == RanEvents(p.trace)
      invariant Machine(EnvOf(host, g), g, stack, p) == Machine(EnvOf(host, g), g, start, Fresh(ctx))
      decreases Unvisited(g, p), |stack|
    {
      var id := stack[|stack| - 1];
      stack := stack[..|stack| - 1];
      PopTrace(EnvOf(host, g), g, id, p);
      var q, next := Iterate(EnvOf(host, g), g, id, p);
      if |q.trace| > |p.trace| {
        RanPush(p.trace, q.trace, id);
        log := log + [Ran(id)];
      }
      p := q;
      if p.stop.Some? {
        r, writes := ConcludeRun(host, snapshot, p);
        log := log + writes;
        return;
      }
      stack := PushReversed(stack, next);
    }
    r, writes := ConcludeRun(host, snapshot, p);
    log := log + writes;
  }

  /** Executes one claimed run to its outcome. */
  method ExecuteRun(host: Host, stored: Value, order: seq<string>) returns (r: RunResult, log: seq<Event>)
    requires CanRun(host, stored, order)
    ensures (r, log) == RunMeaning(host, stored, order)
  {
    if host.hydration.Some? {
      r, log := CompleteRunWithRetry(host, Failed, host.hydration);
      return;
    }
    var snapshot := Hydrate(stored, host.secrets);
    var recorded, _, _ := RetryWithBackoff(host.recordEvents);
    if !recorded {
      return PersistenceFailed(RecordRunEvent), [];
    }
    var graph := FromSnapshot(snapshot);
    if graph.None? {
      r, log := CompleteRunWithRetry(host, Failed, Some("Invalid snapshot"));
      return;
    }
    var g := graph.value;
    var p;
    r, log, p := RunLoop(host, snapshot, g, StartList(snapshot, g, order), InitialContext(snapshot, g, order));
  }
}
