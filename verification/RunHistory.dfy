/** Whole histories of the run queue: many workers, a forward clock, any interleaving of steps. */
module RunHistory {
  import opened Wrappers
  import opened RunQueue

  datatype History = History(tables: seq<Table>, ops: seq<Op>)

  ghost predicate Initial(t: Table) {
    t.rows == map[] && t.dead == map[] && t.issued == {}
  }

  ghost predicate Valid(h: History) {
    && |h.tables| == |h.ops| + 1
    && Initial(h.tables[0])
    && forall i :: 0 <= i < |h.ops| ==> Enabled(h.tables[i], h.ops[i]) && h.tables[i + 1] == Apply(h.tables[i], h.ops[i])
  }

  // ---- One step seen from one row ----

  /** What a step makes of an existing row; None when it deletes it. */
  function RowAfter(t: Table, op: Op, id: Id, r: Row): Option<Row> {
    match op
    case Claim(worker, seconds, Some(picked)) => Some(if picked == id then ClaimedRow(r, worker, seconds, t.now) else r)
    case Renew(run, worker, seconds) =>
      Some(if run == id && r.leasedBy == Some(worker) then r.(leaseExpires := Some(t.now + seconds * SECOND)) else r)
    case Pause(run, snapshot, resumeAt) => Some(if run == id then PausedRow(r, snapshot, resumeAt) else r)
    case Complete(run, status, error) => Some(if run == id then CompletedRow(r, status, error, t.now) else r)
    case Cancel(user, workflow, run) =>
      Some(if run == id && Owns(r, user, workflow) && Active(r) then CanceledRow(r, t.now) else r)
    case CancelAll(user, workflow) => Some(if Owns(r, user, workflow) && Active(r) then CanceledRow(r, t.now) else r)
    case RequeueExpired => Some(if LeaseExpired(r, t.now) then RequeuedRow(r, t.now) else r)
    case Purge(_) => if DoomedBy(t, op).Takes(id, r) then None else Some(r)
    case DeleteWorkflow(_, _) => if DoomedBy(t, op).Takes(id, r) then None else Some(r)
    case DeleteUser(_, _) => if DoomedBy(t, op).Takes(id, r) then None else Some(r)
    case SetPriority(user, workflow, run, priority) =>
      Some(if run == id && Owns(r, user, workflow) then r.(priority := priority) else r)
    case _ => Some(r)
  }

  /** The run a step inserts, if any. */
  function Inserted(t: Table, op: Op): Option<Id>
    requires Enabled(t, op)
  {
    match op
    case Create(id, user, workflow, workspace, _, key) =>
      if user !in t.users || workflow !in t.workflows || KeyTaken(t.rows, user, workflow, workspace, key) then None else Some(id)
    case RequeueDead(user, workflow, deadId, id) =>
      if OwnsLetter(t, user, workflow, deadId) then Some(id) else None
    case _ => None
  }

  lemma RowEffect(t: Table, op: Op, id: Id)
    requires Enabled(t, op) && t.rows.Keys <= t.issued && id in t.rows
    ensures
      var after := RowAfter(t, op, id, t.rows[id]);
      var rows' := Apply(t, op).rows;
      (id in rows' <==> after.Some?) && (after.Some? ==> rows'[id] == after.value)
  {
  }

  lemma InsertEffect(t: Table, op: Op, id: Id)
    requires Enabled(t, op) && t.rows.Keys <= t.issued && id !in t.rows
    ensures
      var t' := Apply(t, op);
      && (id in t'.rows <==> Inserted(t, op) == Some(id))
      && (id in t'.rows ==>
            var r := t'.rows[id];
            && id !in t.issued && r.workflow in t'.workflows && r.user in t'.users
            && r == NewRow(r.user, r.workflow, r.workspace, r.snapshot, r.key, t.now))
  {
  }

  lemma IssuedEffect(t: Table, op: Op)
    requires Enabled(t, op) && t.rows.Keys <= t.issued
    ensures
      var t' := Apply(t, op);
      && t'.issued == t.issued + (if Inserted(t, op).Some? then {Inserted(t, op).value} else {})
      && t'.rows.Keys <= t'.issued
  {
  }

  lemma OwnersEffect(t: Table, op: Op)
    requires Enabled(t, op)
    ensures
      var t' := Apply(t, op);
      && t'.workflows.Keys == t.workflows.Keys - DoomedBy(t, op).workflows
      && t'.users == t.users - DoomedBy(t, op).users
      && t.now <= t'.now
  {
  }

  // ---- The table invariant ----

  predicate RowOk(r: Row) {
    && (r.leasedBy.Some? <==> r.leaseExpires.Some?)
    && (r.status == Queued ==> r.leasedBy.None?)
    && (r.status == Running ==> r.leasedBy.Some?)
    && (r.status.Terminal() ==> r.finishedAt.Some?)
  }

  /** A sound row of an existing workflow and user. */
  predicate RowFits(t: Table, r: Row) {
    RowOk(r) && r.workflow in t.workflows && r.user in t.users && r.createdAt <= t.now
  }

  /**
   Queued rows hold no lease, running rows hold one, finished rows have a finish time; keys are
   unique; rows belong to existing workflows and users, and dead letters to existing runs.
   */
  ghost predicate TableOk(t: Table) {
    && t.rows.Keys <= t.issued
    && (forall id :: id in t.rows ==> RowFits(t, t.rows[id]))
    && UniqueKeys(t.rows)
    && (forall k :: k in t.dead ==> LetterRefers(t, t.dead[k]))
  }

  ghost predicate UniqueKeys(rows: map<Id, Row>) {
    forall a, b :: a in rows && b in rows && HasKey(rows[a], rows[b].user, rows[b].workflow, rows[b].workspace, rows[b].key) ==> a == b
  }

  lemma RowAfterKeepsIdentity(t: Table, op: Op, id: Id, r: Row)
    ensures
      var after := RowAfter(t, op, id, r);
      after.Some? ==>
        var r' := after.value;
        r'.user == r.user && r'.workflow == r.workflow && r'.workspace == r.workspace && r'.key == r.key && r'.createdAt == r.createdAt
  {
  }

  lemma RowAfterKeepsRowOk(t: Table, op: Op, id: Id, r: Row)
    requires RowOk(r) && Enabled(t, op)
    ensures RowAfter(t, op, id, r).Some? ==> RowOk(RowAfter(t, op, id, r).value)
  {
  }

  lemma StepKeepsRows(t: Table, op: Op, id: Id)
    requires TableOk(t) && Enabled(t, op)
    requires id in Apply(t, op).rows
    ensures RowFits(Apply(t, op), Apply(t, op).rows[id])
  {
    OwnersEffect(t, op);
    if id in t.rows {
      RowEffect(t, op, id);
      RowAfterKeepsIdentity(t, op, id, t.rows[id]);
      RowAfterKeepsRowOk(t, op, id, t.rows[id]);
      SurvivorsKeepOwners(t, op, id);
    } else {
      InsertEffect(t, op, id);
    }
  }

  lemma SurvivorsKeepOwners(t: Table, op: Op, id: Id)
    requires id in t.rows && RowAfter(t, op, id, t.rows[id]).Some?
    ensures t.rows[id].workflow !in DoomedBy(t, op).workflows && t.rows[id].user !in DoomedBy(t, op).users
  {
  }

  /** A letter after the step was there before, or is the inserted one. */
  lemma LettersStep(t: Table, op: Op, k: Id)
    requires Enabled(t, op) && k in Apply(t, op).dead
    ensures if k in t.dead then Apply(t, op).dead[k] == t.dead[k] else LetterRefers(t, Apply(t, op).dead[k]) && op.InsertDead?
    ensures k in t.dead ==> !TakesLetter(t.rows, DoomedBy(t, op), t.dead[k])
  {
  }

  lemma StepKeepsLetters(t: Table, op: Op, k: Id)
    requires TableOk(t) && Enabled(t, op) && k in Apply(t, op).dead
    ensures LetterRefers(Apply(t, op), Apply(t, op).dead[k])
  {
    LettersStep(t, op, k);
    if k in t.dead {
      var letter := t.dead[k];
      assert LetterRefers(t, letter);
      OwnersEffect(t, op);
      RowEffect(t, op, letter.run);
      UntakenSurvives(t, op, letter.run);
    }
  }

  lemma UntakenSurvives(t: Table, op: Op, id: Id)
    requires id in t.rows && !DoomedBy(t, op).Takes(id, t.rows[id])
    ensures RowAfter(t, op, id, t.rows[id]).Some?
  {
  }

  /** A row after the step has the identity of the row before it, or is the inserted one. */
  lemma IdentityStep(t: Table, op: Op, id: Id)
    requires TableOk(t) && Enabled(t, op)
    requires id in Apply(t, op).rows
    ensures
      var r' := Apply(t, op).rows[id];
      if id in t.rows then
        var r := t.rows[id];
        r'.user == r.user && r'.workflow == r.workflow && r'.workspace == r.workspace && r'.key == r.key
      else
        && Inserted(t, op) == Some(id)
        && !KeyTaken(t.rows, r'.user, r'.workflow, r'.workspace, r'.key)
  {
    if id in t.rows {
      RowEffect(t, op, id);
      RowAfterKeepsIdentity(t, op, id, t.rows[id]);
    } else {
      InsertEffect(t, op, id);
    }
  }

  lemma StepKeepsKeys(t: Table, op: Op)
    requires TableOk(t) && Enabled(t, op)
    ensures UniqueKeys(Apply(t, op).rows)
  {
    var rows' := Apply(t, op).rows;
    forall a, b | a in rows' && b in rows' && HasKey(rows'[a], rows'[b].user, rows'[b].workflow, rows'[b].workspace, rows'[b].key)
      ensures a == b
    {
      IdentityStep(t, op, a);
      IdentityStep(t, op, b);
      if a in t.rows && b in t.rows {
        assert HasKey(t.rows[a], t.rows[b].user, t.rows[b].workflow, t.rows[b].workspace, t.rows[b].key);
      } else if a in t.rows {
        assert HasKey(t.rows[a], rows'[b].user, rows'[b].workflow, rows'[b].workspace, rows'[b].key);
      } else if b in t.rows {
        assert HasKey(t.rows[b], rows'[a].user, rows'[a].workflow, rows'[a].workspace, rows'[a].key);
      }
    }
  }

  /** Every step keeps the table invariant. */
  lemma StepKeepsTableOk(t: Table, op: Op)
    requires TableOk(t) && Enabled(t, op)
    ensures TableOk(Apply(t, op))
  {
    IssuedEffect(t, op);
    StepKeepsKeys(t, op);
    forall id | id in Apply(t, op).rows
      ensures RowFits(Apply(t, op), Apply(t, op).rows[id])
    {
      StepKeepsRows(t, op, id);
    }
    forall k | k in Apply(t, op).dead
      ensures LetterRefers(Apply(t, op), Apply(t, op).dead[k])
    {
      StepKeepsLetters(t, op, k);
    }
  }

  lemma {:induction false} AlwaysTableOk(h: History, i: nat)
    requires Valid(h) && i < |h.tables|
    ensures TableOk(h.tables[i])
  {
    if i > 0 {
      AlwaysTableOk(h, i - 1);
      StepKeepsTableOk(h.tables[i - 1], h.ops[i - 1]);
    }
  }
}
