/**
 The run queue: the table of workflow runs and the SQL statements that change it
 (backend/src/db/postgres_workflow_repository.rs). Each repository call is one
 atomic step; `now()` is the database clock, which never runs backwards.
 */
module RunQueue {
  import opened Wrappers
  import opened JsonValues

  type Id = nat
  type Worker = string

  /** Time is counted in microseconds, the resolution of a database timestamp. */
  const SECOND := 1_000_000
  const DAY := 86_400 * SECOND

  datatype Status = Queued | Running | Succeeded | Failed | Canceled {
    predicate Terminal() {
      Succeeded? || Failed? || Canceled?
    }
  }

  datatype Row = Row(
    user: Id,
    workflow: Id,
    workspace: Option<Id>,
    snapshot: Value,
    status: Status,
    error: Option<string>,
    key: Option<string>,          // idempotency key
    priority: int,
    leasedBy: Option<Worker>,
    leaseExpires: Option<int>,
    attempt: nat,
    resumeAt: int,
    createdAt: int,
    finishedAt: Option<int>)

  datatype Workflow = Workflow(owner: Id, workspace: Option<Id>, limit: int, allowlist: seq<Value>)

  datatype DeadLetter = DeadLetter(user: Id, workflow: Id, run: Id, error: string, snapshot: Value)

  datatype Table = Table(
    rows: map<Id, Row>,
    workflows: map<Id, Workflow>,
    users: set<Id>,
    dead: map<Id, DeadLetter>,
    now: int,
    issued: set<Id>)              // every run id ever inserted

  // ---- Selection ----

  function RunningIds(rows: map<Id, Row>, workflow: Id): set<Id> {
    set id | id in rows && rows[id].workflow == workflow && rows[id].status == Running
  }

  predicate Eligible(rows: map<Id, Row>, workflows: map<Id, Workflow>, now: int, id: Id) {
    && id in rows
    && rows[id].status == Queued
    && rows[id].resumeAt <= now
    && rows[id].workflow in workflows
    && |RunningIds(rows, rows[id].workflow)| < workflows[rows[id].workflow].limit
  }

  /** ORDER BY queue_priority DESC, created_at ASC. */
  predicate Before(a: Row, b: Row) {
    a.priority > b.priority || (a.priority == b.priority && a.createdAt < b.createdAt)
  }

  /** A row the claim may return: eligible, with no eligible row ordered before it. */
  predicate IsNext(rows: map<Id, Row>, workflows: map<Id, Workflow>, now: int, id: Id) {
    && Eligible(rows, workflows, now, id)
    && forall j :: j in rows && Eligible(rows, workflows, now, j) ==> !Before(rows[j], rows[id])
  }

  /** The unique index on (coalesce(workspace, user), workflow, idempotency key). */
  function Scope(user: Id, workspace: Option<Id>): Id {
    match workspace case Some(w) => w case None => user
  }

  predicate HasKey(row: Row, user: Id, workflow: Id, workspace: Option<Id>, key: Option<string>) {
    && key.Some?
    && row.key == key
    && row.workflow == workflow
    && Scope(row.user, row.workspace) == Scope(user, workspace)
  }

  predicate KeyTaken(rows: map<Id, Row>, user: Id, workflow: Id, workspace: Option<Id>, key: Option<string>) {
    exists id :: id in rows && HasKey(rows[id], user, workflow, workspace, key)
  }

  // ---- Row updates ----

  function NewRow(user: Id, workflow: Id, workspace: Option<Id>, snapshot: Value, key: Option<string>, now: int): Row {
    Row(user, workflow, workspace, snapshot, Queued, None, key, 0, None, None, 0, now, now, None)
  }

  function ClaimedRow(r: Row, worker: Worker, seconds: int, now: int): Row {
    r.(status := Running, leasedBy := Some(worker), leaseExpires := Some(now + seconds * SECOND),
       attempt := r.attempt + 1, resumeAt := now)
  }

  function PausedRow(r: Row, snapshot: Value, resumeAt: int): Row {
    r.(status := Queued, snapshot := snapshot, resumeAt := resumeAt, leasedBy := None, leaseExpires := None)
  }

  function CompletedRow(r: Row, status: Status, error: Option<string>, now: int): Row {
    r.(status := status, error := error, finishedAt := if r.finishedAt.Some? then r.finishedAt else Some(now))
  }

  predicate Active(r: Row) {
    r.status == Queued || r.status == Running
  }

  function CanceledRow(r: Row, now: int): Row {
    r.(status := Canceled, finishedAt := Some(now))
  }

  predicate LeaseExpired(r: Row, now: int) {
    r.status == Running && r.leaseExpires.Some? && r.leaseExpires.value < now
  }

  function RequeuedRow(r: Row, now: int): Row {
    r.(status := Queued, leasedBy := None, leaseExpires := None, resumeAt := if r.resumeAt <= now then r.resumeAt else now)
  }

  predicate Purgeable(r: Row, days: int, now: int) {
    r.status.Terminal() && r.createdAt < now - days * DAY
  }

  function Refreshed(snapshot: Value, allowlist: seq<Value>): Value {
    match snapshot case Object(f) => Object(f["_egress_allowlist" := Array(allowlist)]) case _ => snapshot
  }

  // ---- Steps ----

  datatype Op =
    | Tick(to: int)
    | Create(id: Id, user: Id, workflow: Id, workspace: Option<Id>, snapshot: Value, key: Option<string>)
    | Claim(worker: Worker, seconds: int, picked: Option<Id>)
    | Renew(id: Id, worker: Worker, seconds: int)
    | Pause(id: Id, snapshot: Value, resumeAt: int)
    | Complete(id: Id, status: Status, error: Option<string>)
    | Cancel(user: Id, workflow: Id, id: Id)
    | CancelAll(user: Id, workflow: Id)
    | RequeueExpired
    | Purge(days: int)
    | InsertDead(deadId: Id, letter: DeadLetter)
    | RequeueDead(user: Id, workflow: Id, deadId: Id, id: Id)
    | DeleteDead(deadId: Id)
    | SetPriority(user: Id, workflow: Id, id: Id, priority: int)
    | SetLimit(user: Id, workflow: Id, limit: int)
    | DeleteWorkflow(user: Id, workflow: Id)
    | DeleteUser(user: Id, owned: set<Id>)      // with the workspaces the user owns

  /** The non-deterministic choices a step may make: fresh ids, a forward clock, a first eligible run. */
  predicate Enabled(t: Table, op: Op) {
    match op
    case Tick(to) => t.now <= to
    case Create(id, _, _, _, _, _) => id !in t.issued
    case Claim(_, _, None) => forall id :: id in t.rows ==> !Eligible(t.rows, t.workflows, t.now, id)
    case Claim(_, _, Some(id)) => IsNext(t.rows, t.workflows, t.now, id)
    case Complete(_, status, _) => status.Terminal()
    case InsertDead(deadId, _) => deadId !in t.dead
    case RequeueDead(_, _, _, id) => id !in t.issued
    case _ => true
  }

  predicate Owns(row: Row, user: Id, workflow: Id) {
    row.user == user && row.workflow == workflow
  }

  predicate Addressed(letter: DeadLetter, user: Id, workflow: Id) {
    letter.user == user && letter.workflow == workflow
  }

  /** The letter can be requeued: it is addressed to this user and workflow, and both exist. */
  predicate OwnsLetter(t: Table, user: Id, workflow: Id, deadId: Id) {
    && deadId in t.dead && Addressed(t.dead[deadId], user, workflow)
    && workflow in t.workflows && user in t.users
  }

  // ---- Deletion and its cascades ----

  /** What a deletion step takes away directly. */
  datatype Doomed = Doomed(runs: set<Id>, workflows: set<Id>, users: set<Id>) {
    /** Foreign keys delete a run with its workflow or its user. */
    predicate Takes(id: Id, r: Row) {
      id in runs || r.workflow in workflows || r.user in users
    }
  }

  function DoomedBy(t: Table, op: Op): Doomed {
    match op
    case Purge(days) => Doomed(set id | id in t.rows && Purgeable(t.rows[id], days, t.now), {}, {})
    case DeleteWorkflow(user, workflow) =>
      Doomed({}, if workflow in t.workflows && t.workflows[workflow].owner == user then {workflow} else {}, {})
    case DeleteUser(user, owned) => Doomed({}, set w | w in t.workflows && BelongsTo(t.workflows[w], user, owned), {user})
    case _ => Doomed({}, {}, {})
  }

  predicate BelongsTo(w: Workflow, user: Id, owned: set<Id>) {
    w.owner == user || (w.workspace.Some? && w.workspace.value in owned)
  }

  /** A dead letter goes with its run, its workflow or its user. */
  predicate TakesLetter(rows: map<Id, Row>, d: Doomed, letter: DeadLetter) {
    || letter.workflow in d.workflows || letter.user in d.users
    || (letter.run in rows && d.Takes(letter.run, rows[letter.run]))
  }

  function Cascade(t: Table, d: Doomed): Table {
    t.(rows := map id | id in t.rows && !d.Takes(id, t.rows[id]) :: t.rows[id],
       workflows := t.workflows - d.workflows,
       users := t.users - d.users,
       dead := map k | k in t.dead && !TakesLetter(t.rows, d, t.dead[k]) :: t.dead[k])
  }

  /** The foreign keys of a dead letter. */
  predicate LetterRefers(t: Table, letter: DeadLetter) {
    letter.run in t.rows && letter.workflow in t.workflows && letter.user in t.users
  }

  /** The same rows, except perhaps for the contents of one. */
  predicate SameBut(rows: map<Id, Row>, rows': map<Id, Row>, id: Id) {
    rows.Keys == rows'.Keys && forall j :: j in rows && j != id ==> rows'[j] == rows[j]
  }

  function Apply(t: Table, op: Op): Table
    requires Enabled(t, op)
  {
    match op
    case Tick(to) => t.(now := to)
    case Create(id, user, workflow, workspace, snapshot, key) =>
      if user !in t.users || workflow !in t.workflows || KeyTaken(t.rows, user, workflow, workspace, key) then t
      else Insert(t, id, NewRow(user, workflow, workspace, snapshot, key, t.now))
    case Claim(worker, seconds, None) => t
    case Claim(worker, seconds, Some(id)) => SetRow(t, id, ClaimedRow(t.rows[id], worker, seconds, t.now))
    case Renew(id, worker, seconds) =>
      if id in t.rows && t.rows[id].leasedBy == Some(worker)
      then SetRow(t, id, t.rows[id].(leaseExpires := Some(t.now + seconds * SECOND))) else t
    case Pause(id, snapshot, resumeAt) =>
      if id in t.rows then SetRow(t, id, PausedRow(t.rows[id], snapshot, resumeAt)) else t
    case Complete(id, status, error) =>
      if id in t.rows then SetRow(t, id, CompletedRow(t.rows[id], status, error, t.now)) else t
    case Cancel(user, workflow, id) =>
      if id in t.rows && Owns(t.rows[id], user, workflow) && Active(t.rows[id])
      then SetRow(t, id, CanceledRow(t.rows[id], t.now)) else t
    case CancelAll(user, workflow) =>
      t.(rows := map id | id in t.rows ::
        if Owns(t.rows[id], user, workflow) && Active(t.rows[id]) then CanceledRow(t.rows[id], t.now) else t.rows[id])
    case RequeueExpired =>
      t.(rows := map id | id in t.rows :: if LeaseExpired(t.rows[id], t.now) then RequeuedRow(t.rows[id], t.now) else t.rows[id])
    case Purge(_) => Cascade(t, DoomedBy(t, op))
    case DeleteWorkflow(_, _) => Cascade(t, DoomedBy(t, op))
    case DeleteUser(_, _) => Cascade(t, DoomedBy(t, op))
    case InsertDead(deadId, letter) => if LetterRefers(t, letter) then t.(dead := t.dead[deadId := letter]) else t
    case RequeueDead(user, workflow, deadId, id) =>
      if OwnsLetter(t, user, workflow, deadId)
      then
        var wf := t.workflows[workflow];
        var snapshot := Refreshed(t.dead[deadId].snapshot, wf.allowlist);
        Insert(t, id, NewRow(user, workflow, wf.workspace, snapshot, None, t.now))
      else t
    case DeleteDead(deadId) => t.(dead := t.dead - {deadId})
    case SetPriority(user, workflow, id, priority) =>
      if id in t.rows && Owns(t.rows[id], user, workflow) then SetRow(t, id, t.rows[id].(priority := priority)) else t
    case SetLimit(user, workflow, limit) =>
      if workflow in t.workflows && t.workflows[workflow].owner == user
      then t.(workflows := t.workflows[workflow := t.workflows[workflow].(limit := limit)]) else t
  }

  function SetRow(t: Table, id: Id, row: Row): Table {
    t.(rows := t.rows[id := row])
  }

  function Insert(t: Table, id: Id, row: Row): Table {
    t.(rows := t.rows[id := row], issued := t.issued + {id})
  }

  // ---- The repository ----

  datatype CreateOutcome = Created(id: Id) | Existing(id: Id) | ForeignKeyViolation
  datatype RequeueOutcome = Requeued(id: Id) | NotFound | StatementFailed

  class RunRepository {
    var rows: map<Id, Row>
    var workflows: map<Id, Workflow>
    var users: set<Id>
    var dead: map<Id, DeadLetter>
    var now: int
    ghost var issued: set<Id>

    ghost function View(): Table
      reads this
    {
      Table(rows, workflows, users, dead, now, issued)
    }

    constructor (workflows: map<Id, Workflow>, users: set<Id>, now: int)
      ensures View() == Table(map[], workflows, users, map[], now, {})
    {
      this.rows, this.workflows, this.users, this.dead, this.now := map[], workflows, users, map[], now;
      this.issued := {};
    }

    method CreateWorkflowRun(id: Id, user: Id, workflow: Id, workspace: Option<Id>, snapshot: Value, key: Option<string>)
        returns (outcome: CreateOutcome)
      requires id !in issued
      modifies this
      ensures View() == Apply(old(View()), Create(id, user, workflow, workspace, snapshot, key))
      ensures outcome.Created? ==> outcome.id == id && id in rows && old(View()) != View()
      ensures rows == if outcome.Created?
                      then old(rows)[id := Row(user, workflow, workspace, snapshot, Queued, None, key, 0, None, None, 0, now, now, None)]
                      else old(rows)
      ensures outcome.Created? <== key.None? && user in users && workflow in workflows
      ensures outcome.Existing? ==> outcome.id in old(rows) && key.Some?
      ensures outcome.Existing? ==>
        var r := old(rows)[outcome.id];
        && r.key == key && r.workflow == workflow
        && (if r.workspace.Some? then r.workspace.value else r.user) == (if workspace.Some? then workspace.value else user)
      ensures outcome.ForeignKeyViolation? <==> user !in old(users) || workflow !in old(workflows)
    {
      if user !in users || workflow !in workflows {
        return ForeignKeyViolation;
      }
      if KeyTaken(rows, user, workflow, workspace, key) {
        var existing :| existing in rows && HasKey(rows[existing], user, workflow, workspace, key);
        return Existing(existing);
      }
      rows := rows[id := NewRow(user, workflow, workspace, snapshot, key, now)];
      issued := issued + {id};
      assert id in issued && id !in old(issued);
      return Created(id);
    }

    /** Claims a first eligible run, or nothing exactly when no run is eligible. */
    method ClaimNextEligibleRun(worker: Worker, seconds: int) returns (picked: Option<Id>)
      modifies this
      ensures Enabled(old(View()), Claim(worker, seconds, picked))
      ensures View() == Apply(old(View()), Claim(worker, seconds, picked))
      ensures picked.Some? ==> SameBut(old(rows), rows, picked.value) && picked.value in rows
      ensures picked.Some? ==>
        rows[picked.value] == old(rows)[picked.value].(
          status := Running, leasedBy := Some(worker), leaseExpires := Some(now + seconds * 1_000_000),
          attempt := old(rows)[picked.value].attempt + 1, resumeAt := now)
      ensures picked.None? ==> rows == old(rows)
    {
      var eligible := set id | id in rows && Eligible(rows, workflows, now, id);
      if eligible == {} {
        assert forall id :: id in rows && Eligible(rows, workflows, now, id) ==> id in eligible;
        return None;
      }
      FirstExists(rows, eligible);
      var id :| id in eligible && forall j :: j in eligible ==> !Before(rows[j], rows[id]);
      assert IsNext(rows, workflows, now, id);
      rows := rows[id := ClaimedRow(rows[id], worker, seconds, now)];
      return Some(id);
    }

    method RenewRunLease(id: Id, worker: Worker, seconds: int)
      modifies this
      ensures View() == Apply(old(View()), Renew(id, worker, seconds))
      ensures SameBut(old(rows), rows, id)
      ensures id in rows ==>
        var r := old(rows)[id];
        if r.leasedBy == Some(worker) then
          && rows[id].leaseExpires == Some(now + seconds * 1_000_000) && rows[id].leasedBy == Some(worker)
          && rows[id].status == r.status && rows[id].attempt == r.attempt
        else rows[id] == r
    {
      if id in rows && rows[id].leasedBy == Some(worker) {
        rows := rows[id := rows[id].(leaseExpires := Some(now + seconds * SECOND))];
      }
    }

    method PauseWorkflowRun(id: Id, snapshot: Value, resumeAt: int)
      modifies this
      ensures View() == Apply(old(View()), Pause(id, snapshot, resumeAt))
      ensures SameBut(old(rows), rows, id)
      ensures id in rows ==>
        var r := rows[id];
        && r.status == Queued && r.leasedBy.None? && r.leaseExpires.None?
        && r.snapshot == snapshot && r.resumeAt == resumeAt
        && r.attempt == old(rows)[id].attempt && r.finishedAt == old(rows)[id].finishedAt
    {
      if id in rows {
        rows := rows[id := PausedRow(rows[id], snapshot, resumeAt)];
      }
    }

    method CompleteWorkflowRun(id: Id, status: Status, error: Option<string>)
      requires status.Terminal()
      modifies this
      ensures View() == Apply(old(View()), Complete(id, status, error))
      ensures SameBut(old(rows), rows, id)
      ensures id in rows ==>
        var r := old(rows)[id];
        && rows[id].status == status && rows[id].error == error
        && rows[id].finishedAt == Some(if r.finishedAt.Some? then r.finishedAt.value else now)
        && rows[id].leasedBy == r.leasedBy && rows[id].leaseExpires == r.leaseExpires && rows[id].snapshot == r.snapshot
    {
      if id in rows {
        rows := rows[id := CompletedRow(rows[id], status, error, now)];
      }
    }

    method CancelWorkflowRun(user: Id, workflow: Id, id: Id) returns (canceled: bool)
      modifies this
      ensures View() == Apply(old(View()), Cancel(user, workflow, id))
      ensures canceled <==> id in old(rows) && old(rows)[id].user == user && old(rows)[id].workflow == workflow
                            && (old(rows)[id].status == Queued || old(rows)[id].status == Running)
      ensures rows == if canceled then old(rows)[id := old(rows)[id].(status := Canceled, finishedAt := Some(now))] else old(rows)
    {
      canceled := id in rows && Owns(rows[id], user, workflow) && Active(rows[id]);
      if canceled {
        rows := rows[id := CanceledRow(rows[id], now)];
      }
    }

    method CancelAllRunsForWorkflow(user: Id, workflow: Id) returns (affected: nat)
      modifies this
      ensures View() == Apply(old(View()), CancelAll(user, workflow))
      ensures affected == |set id | id in old(rows) && Owns(old(rows)[id], user, workflow) && Active(old(rows)[id])|
      ensures rows.Keys == old(rows).Keys && forall id :: id in rows ==>
        var r := old(rows)[id];
        rows[id] == if r.user == user && r.workflow == workflow && (r.status == Queued || r.status == Running)
                    then r.(status := Canceled, finishedAt := Some(now)) else r
    {
      affected := |set id | id in rows && Owns(rows[id], user, workflow) && Active(rows[id])|;
      rows := map id | id in rows ::
        if Owns(rows[id], user, workflow) && Active(rows[id]) then CanceledRow(rows[id], now) else rows[id];
    }

    method RequeueExpiredLeases() returns (affected: nat)
      modifies this
      ensures View() == Apply(old(View()), RequeueExpired)
      ensures affected == |set id | id in old(rows) && LeaseExpired(old(rows)[id], now)|
      ensures rows.Keys == old(rows).Keys && forall id :: id in rows ==>
        var r := old(rows)[id];
        rows[id] == if r.status == Running && r.leaseExpires.Some? && r.leaseExpires.value < now
                    then r.(status := Queued, leasedBy := None, leaseExpires := None,
                            resumeAt := if r.resumeAt <= now then r.resumeAt else now)
                    else r
    {
      affected := |set id | id in rows && LeaseExpired(rows[id], now)|;
      rows := map id | id in rows :: if LeaseExpired(rows[id], now) then RequeuedRow(rows[id], now) else rows[id];
    }

    method PurgeOldRuns(days: int) returns (affected: nat)
      modifies this
      ensures View() == Apply(old(View()), Purge(days))
      ensures affected == |set id | id in old(rows) && Purgeable(old(rows)[id], days, now)|
      ensures forall id :: id in old(rows) ==>
        var r := old(rows)[id];
        (id in rows <==> r.status == Queued || r.status == Running || r.createdAt >= now - days * 86_400_000_000)
      ensures forall id :: id in rows ==> id in old(rows) && rows[id] == old(rows)[id]
      ensures forall k :: k in dead ==> k in old(dead) && dead[k] == old(dead)[k]
      ensures forall k :: k in old(dead) ==>
        (k in dead <==> !(old(dead)[k].run in old(rows) && old(dead)[k].run !in rows))
      ensures workflows == old(workflows) && users == old(users) && now == old(now)
    {
      var purged := set id | id in rows && Purgeable(rows[id], days, now);
      affected := |purged|;
      assert Doomed(purged, {}, {}) == DoomedBy(View(), Purge(days));
      Delete(Doomed(purged, {}, {}));
      assert View().now == old(View()).now;
      assert purged == set id | id in old(rows) && Purgeable(old(rows)[id], days, now);
    }

    /** Deleting rows deletes what refers to them. */
    method Delete(d: Doomed)
      modifies this
      ensures View() == Cascade(old(View()), d)
    {
      dead := map k | k in dead && !TakesLetter(rows, d, dead[k]) :: dead[k];
      rows := map id | id in rows && !d.Takes(id, rows[id]) :: rows[id];
      workflows := workflows - d.workflows;
      users := users - d.users;
    }

    method DeleteWorkflow(user: Id, workflow: Id) returns (deleted: bool)
      modifies this
      ensures View() == Apply(old(View()), Op.DeleteWorkflow(user, workflow))
      ensures deleted <==> workflow in old(workflows) && old(workflows)[workflow].owner == user
      ensures deleted ==> workflows == old(workflows) - {workflow}
      ensures deleted ==> forall id :: id in old(rows) ==> (id in rows <==> old(rows)[id].workflow != workflow)
      ensures deleted ==> forall id :: id in rows ==> id in old(rows) && rows[id] == old(rows)[id]
      ensures deleted ==> forall k :: k in dead ==> dead[k].workflow != workflow
      ensures !deleted ==> View() == old(View())
    {
      deleted := workflow in workflows && workflows[workflow].owner == user;
      if deleted {
        Delete(Doomed({}, {workflow}, {}));
      } else {
        NothingDoomed(View());
      }
    }

    /** The account is deleted after its workflows and those of the workspaces it owns. */
    method DeleteUser(user: Id, owned: set<Id>)
      modifies this
      ensures View() == Apply(old(View()), Op.DeleteUser(user, owned))
      ensures users == old(users) - {user}
      ensures forall w :: w in old(workflows) ==>
        (w in workflows <==> old(workflows)[w].owner != user
                             && (old(workflows)[w].workspace.Some? ==> old(workflows)[w].workspace.value !in owned))
      ensures forall id :: id in old(rows) ==>
        (id in rows <==> old(rows)[id].user != user && !(old(rows)[id].workflow in old(workflows) && old(rows)[id].workflow !in workflows))
      ensures forall id :: id in rows ==> id in old(rows) && rows[id] == old(rows)[id]
      ensures forall k :: k in dead ==> dead[k].user != user
    {
      Delete(Doomed({}, set w | w in workflows && BelongsTo(workflows[w], user, owned), {user}));
    }

    method InsertDeadLetter(deadId: Id, letter: DeadLetter) returns (inserted: bool)
      requires deadId !in dead
      modifies this
      ensures View() == Apply(old(View()), InsertDead(deadId, letter))
      ensures inserted <==> letter.run in rows && letter.workflow in workflows && letter.user in users
      ensures dead == if inserted then old(dead)[deadId := letter] else old(dead)
    {
      inserted := letter.run in rows && letter.workflow in workflows && letter.user in users;
      if inserted {
        dead := dead[deadId := letter];
      }
    }

    /**
     Inserting the run and deleting the letter are two statements: when the second one fails
     the caller sees an error, although the run is there, and the letter can be requeued again.
     */
    method RequeueDeadLetter(user: Id, workflow: Id, deadId: Id, id: Id, deleteOk: bool) returns (outcome: RequeueOutcome)
      requires id !in issued && id !in rows
      modifies this
      ensures
        var inserted := Apply(old(View()), RequeueDead(user, workflow, deadId, id));
        View() == if outcome.Requeued? then Apply(inserted, DeleteDead(deadId)) else inserted
      ensures id in rows <==> deadId in old(dead) && old(dead)[deadId].user == user && old(dead)[deadId].workflow == workflow
                              && workflow in workflows && user in users
      ensures id in rows ==>
        var snapshot := old(dead)[deadId].snapshot;
        rows == old(rows)[id := Row(user, workflow, workflows[workflow].workspace,
                                    if snapshot.Object?
                                    then Object(snapshot.fields["_egress_allowlist" := Array(workflows[workflow].allowlist)])
                                    else snapshot,
                                    Queued, None, None, 0, None, None, 0, now, now, None)]
      ensures outcome.Requeued? <==> id in rows && deadId !in dead
      ensures outcome.Requeued? ==> outcome.id == id && deleteOk
      ensures outcome.StatementFailed? && workflow in workflows && user in users ==> id in rows && deadId in dead
      ensures outcome.NotFound? ==> View() == old(View())
    {
      if deadId !in dead || !Addressed(dead[deadId], user, workflow) {
        return NotFound;
      }
      if workflow !in workflows || user !in users {
        return StatementFailed;
      }
      var wf := workflows[workflow];
      var snapshot := Refreshed(dead[deadId].snapshot, wf.allowlist);
      rows := rows[id := NewRow(user, workflow, wf.workspace, snapshot, None, now)];
      issued := issued + {id};
      if !deleteOk {
        return StatementFailed;
      }
      dead := dead - {deadId};
      return Requeued(id);
    }

    method SetRunPriority(user: Id, workflow: Id, id: Id, priority: int)
      modifies this
      ensures View() == Apply(old(View()), SetPriority(user, workflow, id, priority))
      ensures rows == if id in old(rows) && old(rows)[id].user == user && old(rows)[id].workflow == workflow
                      then old(rows)[id := old(rows)[id].(priority := priority)] else old(rows)
    {
      if id in rows && Owns(rows[id], user, workflow) {
        rows := rows[id := rows[id].(priority := priority)];
      }
    }

    method SetWorkflowConcurrencyLimit(user: Id, workflow: Id, limit: int)
      modifies this
      ensures View() == Apply(old(View()), SetLimit(user, workflow, limit))
      ensures workflows == if workflow in old(workflows) && old(workflows)[workflow].owner == user
                           then old(workflows)[workflow := old(workflows)[workflow].(limit := limit)] else old(workflows)
    {
      if workflow in workflows && workflows[workflow].owner == user {
        workflows := workflows[workflow := workflows[workflow].(limit := limit)];
      }
    }
  }

  lemma NothingDoomed(t: Table)
    ensures Cascade(t, Doomed({}, {}, {})) == t
  {
    var t' := Cascade(t, Doomed({}, {}, {}));
    assert t'.rows == t.rows && t'.workflows == t.workflows && t'.users == t.users;
    assert t'.dead == t.dead by {
      assert forall k :: k in t.dead ==> !TakesLetter(t.rows, Doomed({}, {}, {}), t.dead[k]);
    }
  }

  /** A non-empty finite set of rows has one that no other is ordered before. */
  lemma {:induction false} FirstExists(rows: map<Id, Row>, s: set<Id>)
    requires s != {} && s <= rows.Keys
    ensures exists id :: id in s && forall j :: j in s ==> !Before(rows[j], rows[id])
    decreases |s|
  {
    var a :| a in s;
    if s != {a} {
      var rest := s - {a};
      assert s == rest + {a};
      assert rest != {};
      FirstExists(rows, rest);
      var b :| b in rest && forall j :: j in rest ==> !Before(rows[j], rows[b]);
      var first := if Before(rows[a], rows[b]) then a else b;
      assert first in s && forall j :: j in s ==> !Before(rows[j], rows[first]);
    } else {
      assert a in s && forall j :: j in s ==> !Before(rows[j], rows[a]);
    }
  }
}
