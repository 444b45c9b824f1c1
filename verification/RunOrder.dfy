/** Claim order, the concurrency cap and the census of runs over whole histories of the run queue. */
module RunOrder {
  import opened Wrappers
  import opened Sets
  import opened JsonValues
  import opened RunQueue
  import opened RunHistory
  import opened RunLeases

  // ---- Claim order ----

  lemma DueStep(t: Table, op: Op, id: Id, r: Row)
    requires Enabled(t, op) && RowAfter(t, op, id, r).Some? && !(op.Pause? && op.id == id)
    requires r.resumeAt <= t.now
    ensures RowAfter(t, op, id, r).value.resumeAt <= t.now
  {
  }

  /** A run that was never paused is always due. */
  lemma {:induction false} NeverPausedIsDue(h: History, id: Id, i: nat)
    requires Valid(h) && i < |h.tables| && id in h.tables[i].rows
    requires forall m :: 0 <= m < i ==> !Pauses(h, m, id)
    ensures h.tables[i].rows[id].resumeAt <= h.tables[i].now
  {
    if i > 0 {
      RowMoves(h, i - 1, id);
      if id in h.tables[i - 1].rows {
        NeverPausedIsDue(h, id, i - 1);
        assert !Pauses(h, i - 1, id);
        DueStep(h.tables[i - 1], h.ops[i - 1], id, h.tables[i - 1].rows[id]);
      }
    }
  }

  /**
   First come, first served: when a run is claimed, no never-paused run of the same workflow
   that was created earlier and has at least the same priority is still queued.
   */
  lemma EarlierRunsGoFirst(h: History, j: nat, later: Id, earlier: Id)
    requires Valid(h) && Claims(h, j, later) && earlier in h.tables[j].rows
    requires
      var a, b := h.tables[j].rows[earlier], h.tables[j].rows[later];
      a.workflow == b.workflow && a.priority >= b.priority && a.createdAt < b.createdAt
    requires forall m :: 0 <= m < j ==> !Pauses(h, m, earlier)
    ensures h.tables[j].rows[earlier].status != Queued
  {
    NeverPausedIsDue(h, earlier, j);
    var t := h.tables[j];
    assert Before(t.rows[earlier], t.rows[later]);
    assert IsNext(t.rows, t.workflows, t.now, later);
  }

  /** A run the queue could hand out: queued, due, and its workflow below its limit. */
  predicate CouldRun(t: Table, id: Id) {
    && id in t.rows && t.rows[id].status == Queued && t.rows[id].resumeAt <= t.now
    && t.rows[id].workflow in t.workflows
    && |set j | j in t.rows && t.rows[j].workflow == t.rows[id].workflow && t.rows[j].status == Running|
       < t.workflows[t.rows[id].workflow].limit
  }

  lemma CouldRunIsEligible(t: Table, id: Id)
    ensures CouldRun(t, id) <==> Eligible(t.rows, t.workflows, t.now, id)
  {
    if id in t.rows {
      var wf := t.rows[id].workflow;
      assert RunningIds(t.rows, wf) == set j | j in t.rows && t.rows[j].workflow == wf && t.rows[j].status == Running;
    }
  }

  /**
   A claim takes a run that could run, of the highest priority there is, and of those the oldest:
   whatever else could run has a lower priority, or the same and was created no earlier.
   */
  lemma ClaimTakesTheBest(h: History, k: nat, id: Id, other: Id)
    requires Valid(h) && Claims(h, k, id)
    ensures CouldRun(h.tables[k], id)
    ensures CouldRun(h.tables[k], other) ==>
      var a, b := h.tables[k].rows[other], h.tables[k].rows[id];
      a.priority < b.priority || (a.priority == b.priority && a.createdAt >= b.createdAt)
  {
    var t := h.tables[k];
    assert IsNext(t.rows, t.workflows, t.now, id);
    CouldRunIsEligible(t, id);
    CouldRunIsEligible(t, other);
  }

  /** A claim comes back empty if and only if nothing could run. */
  lemma NothingToClaim(h: History, k: nat)
    requires Valid(h) && k < |h.ops| && h.ops[k].Claim?
    ensures h.ops[k].picked.None? <==> forall id :: !CouldRun(h.tables[k], id)
  {
    var t := h.tables[k];
    assert Enabled(t, h.ops[k]);
    forall id
      ensures CouldRun(t, id) <==> Eligible(t.rows, t.workflows, t.now, id)
    {
      CouldRunIsEligible(t, id);
    }
  }

  // ---- Concurrency cap ----

  lemma RunningStep(t: Table, op: Op, id: Id, r: Row)
    requires Enabled(t, op) && RowAfter(t, op, id, r).Some? && RowAfter(t, op, id, r).value.status == Running
    ensures r.status == Running || (op.Claim? && op.picked == Some(id))
    ensures RowAfter(t, op, id, r).value.workflow == r.workflow
  {
  }

  function ClaimedBy(op: Op): set<Id> {
    if op.Claim? && op.picked.Some? then {op.picked.value} else {}
  }

  /** Only a claim adds a running run. */
  lemma OnlyClaimsAddRunning(h: History, i: nat, wf: Id)
    requires Valid(h) && i < |h.ops|
    ensures RunningIds(h.tables[i + 1].rows, wf) <= RunningIds(h.tables[i].rows, wf) + ClaimedBy(h.ops[i])
  {
    forall id | id in RunningIds(h.tables[i + 1].rows, wf)
      ensures id in RunningIds(h.tables[i].rows, wf) + ClaimedBy(h.ops[i])
    {
      RowMoves(h, i, id);
      if id in h.tables[i].rows {
        RunningStep(h.tables[i], h.ops[i], id, h.tables[i].rows[id]);
      }
    }
  }

  /** Right after every claim the workflow's running count is within its limit at that moment. */
  lemma ClaimRespectsCap(h: History, k: nat, id: Id)
    requires Valid(h) && Claims(h, k, id)
    ensures
      var wf := h.tables[k].rows[id].workflow;
      |RunningIds(h.tables[k + 1].rows, wf)| <= h.tables[k + 1].workflows[wf].limit
  {
    var t := h.tables[k];
    var wf := t.rows[id].workflow;
    assert IsNext(t.rows, t.workflows, t.now, id);
    OnlyClaimsAddRunning(h, k, wf);
    var now := RunningIds(t.rows, wf);
    SubsetSize(RunningIds(h.tables[k + 1].rows, wf), now + {id});
    assert |now + {id}| <= |now| + 1;
  }

  lemma ClaimElsewhere(h: History, k: nat, wf: Id)
    requires Valid(h) && k < |h.ops|
    requires forall id :: Claims(h, k, id) ==> h.tables[k].rows[id].workflow != wf
    ensures |RunningIds(h.tables[k + 1].rows, wf)| <= |RunningIds(h.tables[k].rows, wf)|
  {
    OnlyClaimsAddRunning(h, k, wf);
    var before, after := RunningIds(h.tables[k].rows, wf), RunningIds(h.tables[k + 1].rows, wf);
    forall id | id in after
      ensures id in before
    {
      if Claims(h, k, id) {
        ClaimMakesRunning(h, k, id);
        RowMoves(h, k, id);
      }
    }
    SubsetSize(after, before);
  }

  function Cap(t: Table, wf: Id): nat {
    if wf in t.workflows && t.workflows[wf].limit > 0 then t.workflows[wf].limit else 0
  }

  /** As long as the workflow exists. */
  ghost predicate NeverLowered(h: History, wf: Id) {
    forall i :: 0 <= i < |h.ops| < |h.tables| && wf in h.tables[i + 1].workflows ==>
      Cap(h.tables[i], wf) <= Cap(h.tables[i + 1], wf)
  }

  lemma DeletedHasNoRuns(h: History, wf: Id, i: nat)
    requires Valid(h) && i < |h.tables| && wf !in h.tables[i].workflows
    ensures RunningIds(h.tables[i].rows, wf) == {}
  {
    AlwaysTableOk(h, i);
    var t := h.tables[i];
    assert forall id :: id in t.rows ==> RowFits(t, t.rows[id]);
  }

  /** If a workflow's limit is never lowered, its running count never exceeds it. */
  lemma {:induction false} RunningWithinCap(h: History, wf: Id, i: nat)
    requires Valid(h) && i < |h.tables| && NeverLowered(h, wf)
    ensures |RunningIds(h.tables[i].rows, wf)| <= Cap(h.tables[i], wf)
  {
    if i == 0 {
      assert RunningIds(h.tables[0].rows, wf) == {};
    } else {
      RunningWithinCap(h, wf, i - 1);
      if wf in h.tables[i].workflows {
        CapStep(h, wf, i - 1);
      } else {
        DeletedHasNoRuns(h, wf, i);
      }
    }
  }

  lemma CapStep(h: History, wf: Id, k: nat)
    requires Valid(h) && k < |h.ops| && Cap(h.tables[k], wf) <= Cap(h.tables[k + 1], wf)
    requires |RunningIds(h.tables[k].rows, wf)| <= Cap(h.tables[k], wf)
    ensures |RunningIds(h.tables[k + 1].rows, wf)| <= Cap(h.tables[k + 1], wf)
  {
    if id :| Claims(h, k, id) && h.tables[k].rows[id].workflow == wf {
      ClaimRespectsCap(h, k, id);
    } else {
      forall id | Claims(h, k, id)
        ensures h.tables[k].rows[id].workflow != wf
      {
        ClaimMakesRunning(h, k, id);
      }
      ClaimElsewhere(h, k, wf);
    }
  }

  // ---- Census ----

  function WithStatus(rows: map<Id, Row>, s: Status): set<Id> {
    set id | id in rows && rows[id].status == s
  }

  function Finished(rows: map<Id, Row>): set<Id> {
    set id | id in rows && rows[id].status.Terminal()
  }

  /** The runs a step deletes: by a purge, or with their workflow or user. */
  function DeletedBy(t: Table, op: Op): set<Id> {
    set id | id in t.rows && DoomedBy(t, op).Takes(id, t.rows[id])
  }

  ghost function Created(h: History, i: nat): nat
    requires Valid(h) && i < |h.tables|
  {
    if i == 0 then 0
    else Created(h, i - 1) + (if Inserted(h.tables[i - 1], h.ops[i - 1]).Some? then 1 else 0)
  }

  ghost function Deleted(h: History, i: nat): nat
    requires Valid(h) && i < |h.tables|
  {
    if i == 0 then 0 else Deleted(h, i - 1) + |DeletedBy(h.tables[i - 1], h.ops[i - 1])|
  }

  lemma KeysStep(h: History, i: nat)
    requires Valid(h) && i < |h.ops|
    ensures
      var t, t' := h.tables[i], h.tables[i + 1];
      var ins := Inserted(t, h.ops[i]);
      && t'.rows.Keys == (t.rows.Keys - DeletedBy(t, h.ops[i])) + (if ins.Some? then {ins.value} else {})
      && (ins.Some? ==> ins.value !in t.rows)
  {
    var t, t', op := h.tables[i], h.tables[i + 1], h.ops[i];
    AlwaysTableOk(h, i);
    var expected := (t.rows.Keys - DeletedBy(t, op)) + (if Inserted(t, op).Some? then {Inserted(t, op).value} else {});
    forall id
      ensures id in t'.rows <==> id in expected
    {
      if id in t.rows {
        RowEffect(t, op, id);
      } else {
        InsertEffect(t, op, id);
      }
    }
  }

  lemma RowCountStep(h: History, i: nat)
    requires Valid(h) && i < |h.ops|
    ensures
      var t, op := h.tables[i], h.ops[i];
      |h.tables[i + 1].rows.Keys| + |DeletedBy(t, op)| == |t.rows.Keys| + (if Inserted(t, op).Some? then 1 else 0)
  {
    KeysStep(h, i);
    var t, op := h.tables[i], h.ops[i];
    assert DeletedBy(t, op) <= t.rows.Keys;
    assert |t.rows.Keys - DeletedBy(t, op)| == |t.rows.Keys| - |DeletedBy(t, op)|;
  }

  lemma {:induction false} RowsAreCreatedLessDeleted(h: History, i: nat)
    requires Valid(h) && i < |h.tables|
    ensures Created(h, i) == |h.tables[i].rows.Keys| + Deleted(h, i)
  {
    if i > 0 {
      RowsAreCreatedLessDeleted(h, i - 1);
      RowCountStep(h, i - 1);
    }
  }

  lemma StatusesPartition(rows: map<Id, Row>)
    ensures |rows.Keys| == |WithStatus(rows, Queued)| + |WithStatus(rows, Running)| + |Finished(rows)|
  {
    var q, r, f := WithStatus(rows, Queued), WithStatus(rows, Running), Finished(rows);
    assert rows.Keys == q + r + f;
    assert q !! r && (q + r) !! f;
  }

  /** No run is lost or invented: runs created = queued + running + finished + deleted. */
  lemma Census(h: History, i: nat)
    requires Valid(h) && i < |h.tables|
    ensures
      var rows := h.tables[i].rows;
      Created(h, i) == |WithStatus(rows, Queued)| + |WithStatus(rows, Running)| + |Finished(rows)| + Deleted(h, i)
  {
    RowsAreCreatedLessDeleted(h, i);
    StatusesPartition(h.tables[i].rows);
  }

  // ---- Deletion, recovery and idempotency ----

  /** What may delete this run: a purge once it is finished and old, or the deletion of its workflow or user. */
  predicate MayDelete(t: Table, op: Op, r: Row) {
    match op
    case Purge(days) => r.status.Terminal() && r.finishedAt.Some? && r.createdAt < t.now - days * DAY
    case DeleteWorkflow(user, workflow) =>
      workflow == r.workflow && workflow in t.workflows && t.workflows[workflow].owner == user
    case DeleteUser(user, owned) =>
      user == r.user || (r.workflow in t.workflows && BelongsTo(t.workflows[r.workflow], user, owned))
    case _ => false
  }

  lemma TakenMayBeDeleted(t: Table, op: Op, id: Id)
    requires id in t.rows && RowOk(t.rows[id]) && RowAfter(t, op, id, t.rows[id]).None?
    ensures MayDelete(t, op, t.rows[id])
  {
  }

  /** No other step deletes a run, and its dead letters go with it. */
  lemma OnlyTheseDelete(h: History, i: nat, id: Id)
    requires Valid(h) && i < |h.ops|
    requires id in h.tables[i].rows && id !in h.tables[i + 1].rows
    ensures MayDelete(h.tables[i], h.ops[i], h.tables[i].rows[id])
    ensures var dead := h.tables[i + 1].dead; forall k :: k in dead ==> dead[k].run != id
  {
    RowMoves(h, i, id);
    var t, t' := h.tables[i], h.tables[i + 1];
    assert RowFits(t, t.rows[id]);
    TakenMayBeDeleted(t, h.ops[i], id);
    assert forall k :: k in t'.dead ==> LetterRefers(t', t'.dead[k]);
  }

  /**
   No two runs of a workflow share an idempotency key within a workspace, nor, outside of any,
   for one user.
   */
  lemma KeysAreUnique(h: History, i: nat, a: Id, b: Id)
    requires Valid(h) && i < |h.tables| && a in h.tables[i].rows && b in h.tables[i].rows && a != b
    requires
      var r, q := h.tables[i].rows[a], h.tables[i].rows[b];
      r.key.Some? && r.key == q.key && r.workflow == q.workflow
    ensures
      var r, q := h.tables[i].rows[a], h.tables[i].rows[b];
      if r.workspace.Some? then r.workspace != q.workspace else q.workspace.None? ==> r.user != q.user
  {
    AlwaysTableOk(h, i);
    var r, q := h.tables[i].rows[a], h.tables[i].rows[b];
    assert !HasKey(r, q.user, q.workflow, q.workspace, q.key);
  }

  /** Creating again under a key that is taken changes nothing, and only one run ever bears the key. */
  lemma KeyedCreateIsIdempotent(
      t: Table, id: Id, id2: Id, user: Id, workflow: Id, workspace: Option<Id>, snapshot: Value, snapshot2: Value,
      key: Option<string>, x: Id, y: Id)
    requires TableOk(t) && key.Some? && workflow in t.workflows && user in t.users && id !in t.issued
    requires id2 !in t.issued && id2 != id
    ensures
      var once := Apply(t, Create(id, user, workflow, workspace, snapshot, key));
      && Enabled(once, Create(id2, user, workflow, workspace, snapshot2, key))
      && Apply(once, Create(id2, user, workflow, workspace, snapshot2, key)) == once
      && KeyTaken(once.rows, user, workflow, workspace, key)
      && ((x in once.rows && HasKey(once.rows[x], user, workflow, workspace, key)) ==>
          (y in once.rows && HasKey(once.rows[y], user, workflow, workspace, key)) ==> x == y)
  {
    var op := Create(id, user, workflow, workspace, snapshot, key);
    var once := Apply(t, op);
    StepKeepsTableOk(t, op);
    if !KeyTaken(t.rows, user, workflow, workspace, key) {
      assert id in once.rows && HasKey(once.rows[id], user, workflow, workspace, key);
    }
  }

  /** A letter that was requeued can be requeued into another run exactly until it is deleted. */
  lemma RequeuedOnceWhenDeleted(t: Table, user: Id, workflow: Id, deadId: Id, id: Id, id2: Id, deleted: bool)
    requires id !in t.issued && id2 !in t.issued && id != id2
    requires OwnsLetter(t, user, workflow, deadId)
    ensures
      var inserted := Apply(t, RequeueDead(user, workflow, deadId, id));
      var once := if deleted then Apply(inserted, DeleteDead(deadId)) else inserted;
      var again := RequeueDead(user, workflow, deadId, id2);
      Enabled(once, again) && (Apply(once, again) == once <==> deleted)
  {
    var inserted := Apply(t, RequeueDead(user, workflow, deadId, id));
    if !deleted {
      assert id2 in Apply(inserted, RequeueDead(user, workflow, deadId, id2)).issued;
      assert id2 !in inserted.issued;
    }
  }
}
