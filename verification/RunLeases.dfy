/** Leases, attempts and resume times over whole histories of the run queue. */
module RunLeases {
  import opened Wrappers
  import opened RunQueue
  import opened RunHistory

  /** Step `k` claims run `id`. */
  predicate Claims(h: History, k: int, id: Id) {
    0 <= k < |h.ops| && h.ops[k].Claim? && h.ops[k].picked == Some(id)
  }

  /** Step `k` renews the lease its worker holds on run `id`. */
  predicate Renews(h: History, k: int, id: Id) {
    && 0 <= k < |h.ops| < |h.tables|
    && h.ops[k].Renew? && h.ops[k].id == id
    && id in h.tables[k].rows
    && h.tables[k].rows[id].leasedBy == Some(h.ops[k].worker)
  }

  predicate Grants(h: History, k: int, id: Id) {
    Claims(h, k, id) || Renews(h, k, id)
  }

  predicate Pauses(h: History, k: int, id: Id) {
    0 <= k < |h.ops| && h.ops[k].Pause? && h.ops[k].id == id
  }

  /** The expiry a granting step writes. */
  function Expiry(h: History, k: int, id: Id): int
    requires Grants(h, k, id) && |h.ops| < |h.tables|
  {
    h.tables[k].now + h.ops[k].seconds * SECOND
  }

  /** The latest claim of a run before step `i`, or -1. */
  function LastClaim(h: History, id: Id, i: nat): (k: int)
    ensures -1 <= k < i
    ensures k >= 0 ==> Claims(h, k, id)
    ensures forall m :: k < m < i ==> !Claims(h, m, id)
  {
    if i == 0 then -1 else if Claims(h, i - 1, id) then i - 1 else LastClaim(h, id, i - 1)
  }

  /** The latest claim or effective renewal of a run before step `i`, or -1. */
  function LastGrant(h: History, id: Id, i: nat): (k: int)
    ensures -1 <= k < i
    ensures k >= 0 ==> Grants(h, k, id)
    ensures forall m :: k < m < i ==> !Grants(h, m, id)
  {
    if i == 0 then -1 else if Grants(h, i - 1, id) then i - 1 else LastGrant(h, id, i - 1)
  }

  function ClaimCount(h: History, id: Id, i: nat): nat {
    if i == 0 then 0 else ClaimCount(h, id, i - 1) + (if Claims(h, i - 1, id) then 1 else 0)
  }

  // ---- One step along a history ----

  /** How one row moves from table `i` to table `i + 1`. */
  lemma RowMoves(h: History, i: nat, id: Id)
    requires Valid(h) && i < |h.ops|
    ensures TableOk(h.tables[i]) && TableOk(h.tables[i + 1])
    ensures id in h.tables[i].rows ==>
      var after := RowAfter(h.tables[i], h.ops[i], id, h.tables[i].rows[id]);
      (id in h.tables[i + 1].rows <==> after.Some?) && (after.Some? ==> h.tables[i + 1].rows[id] == after.value)
    ensures id !in h.tables[i].rows && id in h.tables[i + 1].rows ==>
      var r := h.tables[i + 1].rows[id];
      && id !in h.tables[i].issued
      && r == NewRow(r.user, r.workflow, r.workspace, r.snapshot, r.key, h.tables[i].now)
      && h.tables[i + 1].now == h.tables[i].now
    ensures h.tables[i].issued <= h.tables[i + 1].issued
    ensures h.tables[i].now <= h.tables[i + 1].now
  {
    var t, op := h.tables[i], h.ops[i];
    AlwaysTableOk(h, i);
    AlwaysTableOk(h, i + 1);
    IssuedEffect(t, op);
    OwnersEffect(t, op);
    if id in t.rows {
      RowEffect(t, op, id);
    } else {
      InsertEffect(t, op, id);
    }
  }

  /** The clock shows the time of the latest tick, and never runs backwards. */
  lemma ClockStep(h: History, i: nat)
    requires Valid(h) && i < |h.ops|
    ensures h.tables[i + 1].now == if h.ops[i].Tick? then h.ops[i].to else h.tables[i].now
    ensures h.tables[i].now <= h.tables[i + 1].now
  {
  }

  lemma {:induction false} ClockForward(h: History, i: nat, j: nat)
    requires Valid(h) && i <= j < |h.tables|
    ensures h.tables[i].now <= h.tables[j].now
    decreases j - i
  {
    if i < j {
      ClockStep(h, j - 1);
      ClockForward(h, i, j - 1);
    }
  }

  /** A run that is gone stays gone: its id is never reused. */
  lemma {:induction false} PresentBetween(h: History, id: Id, i: nat, m: nat, j: nat)
    requires Valid(h) && i <= m <= j < |h.tables|
    requires id in h.tables[i].rows && id in h.tables[j].rows
    ensures id in h.tables[m].rows
    decreases j - m
  {
    if m < j {
      PresentBetween(h, id, i, m + 1, j);
      RowMoves(h, m, id);
      IssuedStays(h, id, i, m);
    }
  }

  lemma {:induction false} IssuedStays(h: History, id: Id, i: nat, m: nat)
    requires Valid(h) && i <= m < |h.tables| && id in h.tables[i].rows
    ensures id in h.tables[m].issued
    decreases m - i
  {
    AlwaysTableOk(h, i);
    if i < m {
      IssuedStays(h, id, i, m - 1);
      RowMoves(h, m - 1, id);
    }
  }

  // ---- Attempts ----

  lemma {:induction false} UnissuedIsUnclaimed(h: History, id: Id, i: nat)
    requires Valid(h) && i < |h.tables| && id !in h.tables[i].issued
    ensures ClaimCount(h, id, i) == 0
  {
    if i > 0 {
      RowMoves(h, i - 1, id);
      UnissuedIsUnclaimed(h, id, i - 1);
    }
  }

  lemma AttemptStep(t: Table, op: Op, id: Id, r: Row)
    requires RowAfter(t, op, id, r).Some?
    ensures RowAfter(t, op, id, r).value.attempt
         == r.attempt + (if op.Claim? && op.picked == Some(id) then 1 else 0)
  {
  }

  /** The attempt counter of a run is the number of times it was claimed. */
  lemma {:induction false} AttemptCountsClaims(h: History, id: Id, i: nat)
    requires Valid(h) && i < |h.tables| && id in h.tables[i].rows
    ensures h.tables[i].rows[id].attempt == ClaimCount(h, id, i)
  {
    if i > 0 {
      RowMoves(h, i - 1, id);
      if id in h.tables[i - 1].rows {
        AttemptCountsClaims(h, id, i - 1);
        AttemptStep(h.tables[i - 1], h.ops[i - 1], id, h.tables[i - 1].rows[id]);
      } else {
        UnissuedIsUnclaimed(h, id, i - 1);
      }
    }
  }

  // ---- The lease in the table is the latest one granted ----

  lemma LeaseStep(t: Table, op: Op, id: Id, r: Row)
    requires RowAfter(t, op, id, r).Some?
    ensures
      var r' := RowAfter(t, op, id, r).value;
      if op.Claim? && op.picked == Some(id) then
        r'.leasedBy == Some(op.worker) && r'.leaseExpires == Some(t.now + op.seconds * SECOND)
      else if op.Renew? && op.id == id && r.leasedBy == Some(op.worker) then
        r'.leasedBy == r.leasedBy && r'.leaseExpires == Some(t.now + op.seconds * SECOND)
      else
        (r'.leasedBy == r.leasedBy && r'.leaseExpires == r.leaseExpires) || (r'.leasedBy.None? && r'.leaseExpires.None?)
  {
  }

  lemma LatestStep(h: History, id: Id, k: nat)
    requires k < |h.ops| < |h.tables|
    ensures LastClaim(h, id, k + 1) == if Claims(h, k, id) then k else LastClaim(h, id, k)
    ensures LastGrant(h, id, k + 1) == if Grants(h, k, id) then k else LastGrant(h, id, k)
  {
  }

  /** A lease in the table was granted or was there the step before. */
  lemma LeaseMoves(h: History, id: Id, k: nat)
    requires Valid(h) && k < |h.ops|
    requires id in h.tables[k + 1].rows && h.tables[k + 1].rows[id].leasedBy.Some?
    ensures id in h.tables[k].rows
    ensures
      var r, r' := h.tables[k].rows[id], h.tables[k + 1].rows[id];
      && r'.leasedBy == (if Claims(h, k, id) then Some(h.ops[k].worker) else r.leasedBy)
      && r'.leaseExpires == (if Grants(h, k, id) then Some(Expiry(h, k, id)) else r.leaseExpires)
  {
    RowMoves(h, k, id);
    assert id in h.tables[k].rows;
    LeaseStep(h.tables[k], h.ops[k], id, h.tables[k].rows[id]);
  }

  /** Any lease in the table names the worker of the latest claim and the expiry of the latest grant. */
  lemma {:induction false} LeaseIsLatestGrant(h: History, id: Id, i: nat)
    requires Valid(h) && i < |h.tables| && id in h.tables[i].rows && h.tables[i].rows[id].leasedBy.Some?
    ensures
      var c, g := LastClaim(h, id, i), LastGrant(h, id, i);
      && 0 <= c <= g
      && h.tables[i].rows[id].leasedBy == Some(h.ops[c].worker)
      && h.tables[i].rows[id].leaseExpires == Some(Expiry(h, g, id))
  {
    LeaseMoves(h, id, i - 1);
    LatestStep(h, id, i - 1);
    if !Claims(h, i - 1, id) {
      LeaseIsLatestGrant(h, id, i - 1);
    }
  }

  /** A running run holds the lease of its latest claim; a queued one holds none. */
  lemma RunningHoldsItsLease(h: History, id: Id, i: nat)
    requires Valid(h) && i < |h.tables| && id in h.tables[i].rows
    ensures
      var r := h.tables[i].rows[id];
      && (r.status == Queued ==> r.leasedBy.None? && r.leaseExpires.None?)
      && (r.status == Running ==>
            var c, g := LastClaim(h, id, i), LastGrant(h, id, i);
            && 0 <= c <= g
            && r.leasedBy == Some(h.ops[c].worker)
            && r.leaseExpires == Some(Expiry(h, g, id)))
  {
    AlwaysTableOk(h, i);
    if h.tables[i].rows[id].status == Running {
      LeaseIsLatestGrant(h, id, i);
    }
  }

  // ---- Exclusivity ----

  /** Step `k` puts a run that held its latest lease back in the queue after that lease expired. */
  ghost predicate RequeuesExpired(h: History, k: int, id: Id) {
    && 0 <= k < |h.ops| < |h.tables|
    && h.ops[k].RequeueExpired?
    && id in h.tables[k].rows && LeaseExpired(h.tables[k].rows[id], h.tables[k].now)
    && LastGrant(h, id, k) >= 0 && Expiry(h, LastGrant(h, id, k), id) < h.tables[k].now
  }

  lemma QueuedOnlyByPauseOrRequeue(t: Table, op: Op, id: Id, r: Row)
    requires Enabled(t, op) && r.status != Queued
    requires RowAfter(t, op, id, r).Some? && RowAfter(t, op, id, r).value.status == Queued
    ensures (op.Pause? && op.id == id) || (op.RequeueExpired? && LeaseExpired(r, t.now))
  {
  }

  /** The first step after `i` that puts a run back in the queue. */
  lemma {:induction false} FirstReturn(h: History, id: Id, i: nat, j: nat) returns (k: nat)
    requires Valid(h) && i <= j < |h.tables|
    requires id in h.tables[i].rows && h.tables[i].rows[id].status != Queued
    requires id in h.tables[j].rows && h.tables[j].rows[id].status == Queued
    ensures i <= k < j
    ensures id in h.tables[k].rows && h.tables[k].rows[id].status != Queued
    ensures id in h.tables[k + 1].rows && h.tables[k + 1].rows[id].status == Queued
    decreases j - i
  {
    PresentBetween(h, id, i, i + 1, j);
    if h.tables[i + 1].rows[id].status == Queued {
      k := i;
    } else {
      k := FirstReturn(h, id, i + 1, j);
    }
  }

  lemma ClaimMakesRunning(h: History, i: nat, id: Id)
    requires Valid(h) && Claims(h, i, id)
    ensures id in h.tables[i].rows && h.tables[i].rows[id].status == Queued
    ensures id in h.tables[i + 1].rows && h.tables[i + 1].rows[id].status == Running
  {
  }

  /**
   Lease exclusivity: between two claims of one run there is a pause of it, or a requeue
   made after the latest expiry claimed or renewed until then.
   */
  lemma ClaimsAreSeparated(h: History, id: Id, i: nat, j: nat) returns (k: nat)
    requires Valid(h) && i < j && Claims(h, i, id) && Claims(h, j, id)
    ensures i < k < j
    ensures Pauses(h, k, id) || (RequeuesExpired(h, k, id) && LastGrant(h, id, k) >= i)
  {
    ClaimMakesRunning(h, i, id);
    ClaimMakesRunning(h, j, id);
    k := FirstReturn(h, id, i + 1, j);
    RowMoves(h, k, id);
    QueuedOnlyByPauseOrRequeue(h.tables[k], h.ops[k], id, h.tables[k].rows[id]);
    if !Pauses(h, k, id) {
      RunningHoldsItsLease(h, id, k);
    }
  }

  lemma UnleasedStep(t: Table, op: Op, id: Id, r: Row)
    requires r.leasedBy.None? && RowAfter(t, op, id, r).Some?
    requires !(op.Claim? && op.picked == Some(id))
    ensures RowAfter(t, op, id, r).value.leasedBy.None?
  {
  }

  lemma UnleasedMove(h: History, m: nat, id: Id)
    requires Valid(h) && m < |h.ops| && !Claims(h, m, id)
    requires id in h.tables[m].rows && h.tables[m].rows[id].leasedBy.None? && id in h.tables[m + 1].rows
    ensures h.tables[m + 1].rows[id].leasedBy.None? && !Grants(h, m, id)
  {
    RowMoves(h, m, id);
    UnleasedStep(h.tables[m], h.ops[m], id, h.tables[m].rows[id]);
  }

  /** With no claim in between, a run without a lease is granted none. */
  lemma {:induction false} NoGrantWithoutLease(h: History, id: Id, k: nat, j: nat)
    requires Valid(h) && k <= j < |h.tables|
    requires id in h.tables[k].rows && h.tables[k].rows[id].leasedBy.None? && id in h.tables[j].rows
    requires forall m :: k <= m < j ==> !Claims(h, m, id)
    ensures h.tables[j].rows[id].leasedBy.None?
    ensures LastGrant(h, id, j) == LastGrant(h, id, k)
    decreases j - k
  {
    if k < j {
      PresentBetween(h, id, k, j - 1, j);
      NoGrantWithoutLease(h, id, k, j - 1);
      UnleasedMove(h, j - 1, id);
    }
  }

  lemma RequeueClearsLease(h: History, k: nat, id: Id)
    requires Valid(h) && RequeuesExpired(h, k, id)
    ensures id in h.tables[k + 1].rows && h.tables[k + 1].rows[id].leasedBy.None?
    ensures LastGrant(h, id, k + 1) == LastGrant(h, id, k)
  {
  }

  /** A run requeued after its latest expiry and claimed next is claimed past that expiry. */
  lemma ClaimedPastExpiry(h: History, id: Id, k: nat, j: nat)
    requires Valid(h) && k < j && RequeuesExpired(h, k, id) && Claims(h, j, id)
    requires forall m :: k < m < j ==> !Claims(h, m, id)
    ensures LastGrant(h, id, j) == LastGrant(h, id, k)
    ensures Expiry(h, LastGrant(h, id, k), id) < h.tables[j].now
  {
    RequeueClearsLease(h, k, id);
    ClaimMakesRunning(h, j, id);
    NoGrantWithoutLease(h, id, k + 1, j);
    ClockForward(h, k, j);
  }

  /**
   No second worker is granted an unpaused run before the expiry latest granted: at the next
   claim of the run, the clock is past every lease granted on it that was the latest.
   */
  lemma NoClaimBeforeExpiry(h: History, id: Id, i: nat, j: nat)
    requires Valid(h) && i < j && Claims(h, i, id) && Claims(h, j, id)
    requires forall m :: i < m < j ==> !Claims(h, m, id) && !Pauses(h, m, id)
    ensures LastGrant(h, id, j) >= i
    ensures Expiry(h, LastGrant(h, id, j), id) < h.tables[j].now
  {
    var k := ClaimsAreSeparated(h, id, i, j);
    assert !Pauses(h, k, id);
    ClaimedPastExpiry(h, id, k, j);
  }

  // ---- Resume times ----

  lemma ResumeStep(t: Table, op: Op, id: Id, r: Row)
    requires Enabled(t, op) && RowAfter(t, op, id, r).Some? && !(op.Pause? && op.id == id) && !(op.Claim? && op.picked == Some(id))
    requires r.status != Running
    ensures RowAfter(t, op, id, r).value.resumeAt == r.resumeAt && RowAfter(t, op, id, r).value.status != Running
  {
  }

  lemma ResumeMove(h: History, m: nat, id: Id)
    requires Valid(h) && m < |h.ops| && !Claims(h, m, id) && !Pauses(h, m, id)
    requires id in h.tables[m].rows && h.tables[m].rows[id].status != Running && id in h.tables[m + 1].rows
    ensures h.tables[m + 1].rows[id].resumeAt == h.tables[m].rows[id].resumeAt
    ensures h.tables[m + 1].rows[id].status != Running
  {
    RowMoves(h, m, id);
    ResumeStep(h.tables[m], h.ops[m], id, h.tables[m].rows[id]);
  }

  lemma {:induction false} ResumeTimeStays(h: History, id: Id, k: nat, j: nat)
    requires Valid(h) && k <= j < |h.tables|
    requires id in h.tables[k].rows && id in h.tables[j].rows && h.tables[k].rows[id].status != Running
    requires forall m :: k <= m < j ==> !Claims(h, m, id) && !Pauses(h, m, id)
    ensures h.tables[j].rows[id].resumeAt == h.tables[k].rows[id].resumeAt
    ensures h.tables[j].rows[id].status != Running
    decreases j - k
  {
    if k < j {
      var m := j - 1;
      assert !Claims(h, m, id) && !Pauses(h, m, id);
      PresentBetween(h, id, k, m, j);
      ResumeTimeStays(h, id, k, m);
      ResumeMove(h, m, id);
    }
  }

  /** A paused run is not claimed before the resume time of its latest pause. */
  lemma NotClaimedBeforeResume(h: History, id: Id, k: nat, j: nat)
    requires Valid(h) && k < j && Pauses(h, k, id) && id in h.tables[k].rows && Claims(h, j, id)
    requires forall m :: k < m < j ==> !Claims(h, m, id) && !Pauses(h, m, id)
    ensures h.ops[k].resumeAt <= h.tables[j].now
  {
    ClaimMakesRunning(h, j, id);
    RowMoves(h, k, id);
    ResumeTimeStays(h, id, k + 1, j);
  }

  // ---- Terminal statuses ----

  /** A terminal status is left only through a pause, or replaced by another completion. */
  lemma TerminalIsSticky(h: History, i: nat, id: Id)
    requires Valid(h) && i < |h.ops|
    requires id in h.tables[i].rows && h.tables[i].rows[id].status.Terminal() && id in h.tables[i + 1].rows
    requires h.tables[i + 1].rows[id].status != h.tables[i].rows[id].status
    ensures
      || Pauses(h, i, id)
      || (h.ops[i].Complete? && h.ops[i].id == id && h.tables[i + 1].rows[id].status.Terminal())
  {
    RowMoves(h, i, id);
    TerminalStep(h.tables[i], h.ops[i], id, h.tables[i].rows[id]);
  }

  lemma TerminalStep(t: Table, op: Op, id: Id, r: Row)
    requires Enabled(t, op) && id in t.rows && t.rows[id] == r && r.status.Terminal() && RowAfter(t, op, id, r).Some?
    requires RowAfter(t, op, id, r).value.status != r.status
    ensures (op.Pause? && op.id == id) || (op.Complete? && op.id == id && RowAfter(t, op, id, r).value.status.Terminal())
  {
  }
}
