/**
 The workspace run quota: tickets counted against a billing period, with overage
 flags, and released later (backend/src/db/postgres_workspace_repository.rs:644-857,
 backend/src/state.rs:219-360, 445-460).
 */
module Quota {
  import opened Wrappers
  import opened Sets

  type Id = nat

  /** A row of workspace_run_usage, keyed by workspace and period start. */
  datatype Key = Key(workspace: Id, period: int)
  datatype Usage = Usage(runs: int, overage: int)

  datatype Cycle = Cycle(start: int, end: int)

  datatype Ticket = Ticket(workspace: Id, period: int, runCount: int, overageCount: int, limit: int, overage: bool) {
    function UsageKey(): Key {
      Key(workspace, period)
    }
  }

  /** The period a run is counted under; `monthStart` is the calendar fallback without a billing cycle. */
  function PeriodStart(cycle: Option<Cycle>, now: int, monthStart: int -> int): int {
    match cycle
    case Some(c) => if now >= c.end then c.end else c.start
    case None => monthStart(now)
  }

  function Current(usage: map<Key, Usage>, k: Key): Usage {
    if k in usage then usage[k] else Usage(0, 0)
  }

  function Max0(n: int): int {
    if n < 0 then 0 else n
  }

  function Incremented(usage: map<Key, Usage>, k: Key, limit: int): map<Key, Usage> {
    var u := Current(usage, k);
    usage[k := Usage(u.runs + 1, if u.runs + 1 > limit then u.overage + 1 else u.overage)]
  }

  function Released(usage: map<Key, Usage>, k: Key, overage: bool): map<Key, Usage> {
    if k !in usage || Max0(usage[k].runs) == 0 then usage
    else
      var over := Max0(usage[k].overage);
      var over' := if overage && over > 0 then over - 1 else over;
      var runs' := Max0(usage[k].runs) - 1;
      if runs' == 0 && over' == 0 then usage - {k} else usage[k := Usage(runs', over')]
  }

  // ---- The ledger ----

  datatype Ledger = Ledger(
    usage: map<Key, Usage>,
    cycles: map<Id, Cycle>,
    metered: set<Id>,                    // workspaces on the Workspace plan
    now: int,
    outstanding: map<Id, Ticket>)        // tickets issued and not yet released

  datatype Op =
    | Tick(to: int)
    | SetPlan(workspace: Id, metered: bool)
    | Sync(workspace: Id, start: int, end: int)
    | ClearCycle(workspace: Id)
    | Consume(workspace: Id, limit: int, ticket: Id)
    | Release(ticket: Id)

  /** Ticket names are fresh, and a ticket is released at most once. */
  predicate Enabled(s: Ledger, op: Op) {
    match op
    case Tick(to) => s.now <= to
    case Consume(_, _, ticket) => ticket !in s.outstanding
    case Release(ticket) => ticket in s.outstanding
    case _ => true
  }

  /** The ticket a consume hands out to a metered workspace. */
  function Issued(s: Ledger, workspace: Id, limit: int, monthStart: int -> int): Ticket {
    var period := PeriodStart(if workspace in s.cycles then Some(s.cycles[workspace]) else None, s.now, monthStart);
    var u := Current(s.usage, Key(workspace, period));
    var over := u.runs + 1 > limit;
    Ticket(workspace, period, u.runs + 1, if over then u.overage + 1 else u.overage, limit, over)
  }

  function Apply(s: Ledger, op: Op, monthStart: int -> int): Ledger
    requires Enabled(s, op)
  {
    match op
    case Tick(to) => s.(now := to)
    case SetPlan(w, m) => s.(metered := if m then s.metered + {w} else s.metered - {w})
    case Sync(w, start, end) => s.(cycles := s.cycles[w := Cycle(start, end)])
    case ClearCycle(w) => s.(cycles := s.cycles - {w})
    case Consume(w, limit, id) =>
      if w !in s.metered then s
      else
        var t := Issued(s, w, limit, monthStart);
        s.(usage := Incremented(s.usage, t.UsageKey(), limit), outstanding := s.outstanding[id := t])
    case Release(id) =>
      var t := s.outstanding[id];
      s.(usage := Released(s.usage, t.UsageKey(), t.overage), outstanding := s.outstanding - {id})
  }

  class QuotaService {
    var usage: map<Key, Usage>
    var cycles: map<Id, Cycle>
    var metered: set<Id>
    var now: int
    ghost var outstanding: map<Id, Ticket>
    const monthStart: int -> int

    ghost function View(): Ledger
      reads this
    {
      Ledger(usage, cycles, metered, now, outstanding)
    }

    constructor (metered: set<Id>, now: int, monthStart: int -> int)
      ensures View() == Ledger(map[], map[], metered, now, map[])
      ensures this.monthStart == monthStart
    {
      this.usage, this.cycles, this.metered, this.now := map[], map[], metered, now;
      this.monthStart := monthStart;
      this.outstanding := map[];
    }

    /** The read-modify-write transaction of `try_increment_workspace_run_quota`. */
    method TryIncrement(k: Key, limit: int) returns (allowed: bool, runs: int, overage: int, overageIncremented: bool)
      modifies this`usage
      ensures usage == Incremented(old(usage), k, limit)
      ensures Current(usage, k) == Usage(runs, overage)
      ensures runs == Current(old(usage), k).runs + 1
      ensures allowed <==> runs <= limit
      ensures overageIncremented == !allowed
      ensures overage == Current(old(usage), k).overage + (if overageIncremented then 1 else 0)
    {
      var current, currentOverage := 0, 0;
      if k in usage {
        current, currentOverage := usage[k].runs, usage[k].overage;
      }
      runs, overage := current + 1, currentOverage;
      overageIncremented := false;
      if runs > limit {
        overage := overage + 1;
        overageIncremented := true;
      }
      usage := usage[k := Usage(runs, overage)];
      allowed := runs <= limit;
    }

    /** `release_workspace_run_quota`: never below zero, and the row goes when both counts are zero. */
    method ReleaseUsage(k: Key, overageDecrement: bool)
      modifies this`usage
      ensures usage == Released(old(usage), k, overageDecrement)
    {
      if k in usage {
        var current, currentOverage := Max0(usage[k].runs), Max0(usage[k].overage);
        if current == 0 {
          return;
        }
        var next := current - 1;
        if overageDecrement && currentOverage > 0 {
          currentOverage := currentOverage - 1;
        }
        if next == 0 && currentOverage == 0 {
          usage := usage - {k};
        } else {
          usage := usage[k := Usage(next, currentOverage)];
        }
      }
    }

    method ConsumeWorkspaceRunQuota(workspace: Id, limit: int, ghost name: Id) returns (ticket: Option<Ticket>)
      requires name !in outstanding
      modifies this
      ensures View() == Apply(old(View()), Consume(workspace, limit, name), monthStart)
      ensures ticket == if workspace in metered then Some(Issued(old(View()), workspace, limit, monthStart)) else None
    {
      if workspace !in metered {
        return None;
      }
      var cycle := if workspace in cycles then Some(cycles[workspace]) else None;
      var period := PeriodStart(cycle, now, monthStart);
      var allowed, runs, overage, over := TryIncrement(Key(workspace, period), limit);
      var t := Ticket(workspace, period, runs, overage, limit, over);
      outstanding := outstanding[name := t];
      return Some(t);
    }

    method ReleaseWorkspaceRunQuota(ticket: Ticket, ghost name: Id)
      requires name in outstanding && outstanding[name] == ticket
      modifies this
      ensures View() == Apply(old(View()), Release(name), monthStart)
    {
      ReleaseUsage(ticket.UsageKey(), ticket.overage);
      outstanding := outstanding - {name};
    }

    method SyncBillingCycle(workspace: Id, start: int, end: int)
      modifies this
      ensures View() == Apply(old(View()), Sync(workspace, start, end), monthStart)
      ensures cycles == old(cycles)[workspace := Cycle(start, end)]
    {
      cycles := cycles[workspace := Cycle(start, end)];
    }

    method ClearBillingCycle(workspace: Id)
      modifies this
      ensures View() == Apply(old(View()), ClearCycle(workspace), monthStart)
      ensures cycles == old(cycles) - {workspace}
    {
      cycles := cycles - {workspace};
    }

    method UpdatePlan(workspace: Id, onWorkspacePlan: bool)
      modifies this
      ensures View() == Apply(old(View()), SetPlan(workspace, onWorkspacePlan), monthStart)
      ensures metered == if onWorkspacePlan then old(metered) + {workspace} else old(metered) - {workspace}
    {
      metered := if onWorkspacePlan then metered + {workspace} else metered - {workspace};
    }
  }

  // ---- Conservation ----

  function Holders(outstanding: map<Id, Ticket>, k: Key): set<Id> {
    set id | id in outstanding && outstanding[id].UsageKey() == k
  }

  function Flagged(outstanding: map<Id, Ticket>, k: Key): set<Id> {
    set id | id in outstanding && outstanding[id].UsageKey() == k && outstanding[id].overage
  }

  /** The counters of a period are exactly its outstanding tickets; a missing row means none. */
  predicate KeyConserved(usage: map<Key, Usage>, o: map<Id, Ticket>, k: Key) {
    && Current(usage, k) == Usage(|Holders(o, k)|, |Flagged(o, k)|)
    && (k in usage <==> Holders(o, k) != {})
  }

  ghost predicate Conserved(s: Ledger) {
    forall k: Key :: KeyConserved(s.usage, s.outstanding, k)
  }

  lemma HoldersAdd(o: map<Id, Ticket>, id: Id, t: Ticket, k: Key)
    requires id !in o
    ensures Holders(o[id := t], k) == Holders(o, k) + (if t.UsageKey() == k then {id} else {})
    ensures Flagged(o[id := t], k) == Flagged(o, k) + (if t.UsageKey() == k && t.overage then {id} else {})
  {
  }

  lemma HoldersDrop(o: map<Id, Ticket>, id: Id, k: Key)
    requires id in o
    ensures Holders(o - {id}, k) == Holders(o, k) - (if o[id].UsageKey() == k then {id} else {})
    ensures Flagged(o - {id}, k) == Flagged(o, k) - (if o[id].UsageKey() == k && o[id].overage then {id} else {})
  {
  }

  lemma FlaggedHold(o: map<Id, Ticket>, k: Key)
    ensures |Flagged(o, k)| <= |Holders(o, k)|
  {
    SubsetSize(Flagged(o, k), Holders(o, k));
  }

  lemma IncrementConserves(usage: map<Key, Usage>, o: map<Id, Ticket>, id: Id, t: Ticket, limit: int, k: Key)
    requires KeyConserved(usage, o, k) && id !in o
    requires t.UsageKey() == k ==> t.overage == (Current(usage, k).runs + 1 > limit)
    ensures KeyConserved(Incremented(usage, t.UsageKey(), limit), o[id := t], k)
  {
    HoldersAdd(o, id, t, k);
    assert id !in Holders(o, k) && id !in Flagged(o, k);
  }

  lemma ReleaseOther(usage: map<Key, Usage>, o: map<Id, Ticket>, id: Id, k: Key)
    requires KeyConserved(usage, o, k) && id in o && o[id].UsageKey() != k
    ensures KeyConserved(Released(usage, o[id].UsageKey(), o[id].overage), o - {id}, k)
  {
    HoldersDrop(o, id, k);
    assert Holders(o - {id}, k) == Holders(o, k);
    assert Flagged(o - {id}, k) == Flagged(o, k);
  }

  lemma RemoveSize<T>(s: set<T>, x: T)
    ensures |s - {x}| == |s| - (if x in s then 1 else 0)
  {
  }

  /** Taking one counted ticket off, in numbers. */
  lemma ReleasedCounts(usage: map<Key, Usage>, k: Key, overage: bool, runs: int, over: int)
    requires k in usage && usage[k] == Usage(runs, over)
    requires runs > 0 && 0 <= over && (overage ==> over > 0)
    ensures Current(Released(usage, k, overage), k) == Usage(runs - 1, if overage then over - 1 else over)
    ensures k in Released(usage, k, overage) <==> runs - 1 != 0 || (if overage then over - 1 else over) != 0
  {
  }

  lemma ReleaseOwn(usage: map<Key, Usage>, o: map<Id, Ticket>, id: Id)
    requires id in o && KeyConserved(usage, o, o[id].UsageKey())
    ensures KeyConserved(Released(usage, o[id].UsageKey(), o[id].overage), o - {id}, o[id].UsageKey())
  {
    var k := o[id].UsageKey();
    var h, f := Holders(o, k), Flagged(o, k);
    assert id in h && (id in f <==> o[id].overage);
    HoldersDrop(o, id, k);
    RemoveSize(h, id);
    RemoveSize(f, id);
    FlaggedHold(o - {id}, k);
    ReleasedCounts(usage, k, o[id].overage, |h|, |f|);
    assert Holders(o - {id}, k) == h - {id};
    assert Flagged(o - {id}, k) == f - {id};
  }

  /** Every step conserves tickets. */
  lemma StepConserves(s: Ledger, op: Op, monthStart: int -> int)
    requires Conserved(s) && Enabled(s, op)
    ensures Conserved(Apply(s, op, monthStart))
  {
    match op
    case Consume(w, limit, id) =>
      if w in s.metered {
        var t := Issued(s, w, limit, monthStart);
        forall k: Key
          ensures KeyConserved(Apply(s, op, monthStart).usage, Apply(s, op, monthStart).outstanding, k)
        {
          assert KeyConserved(s.usage, s.outstanding, k);
          IncrementConserves(s.usage, s.outstanding, id, t, limit, k);
        }
      }
    case Release(id) =>
      forall k: Key
        ensures KeyConserved(Apply(s, op, monthStart).usage, Apply(s, op, monthStart).outstanding, k)
      {
        assert KeyConserved(s.usage, s.outstanding, k);
        if s.outstanding[id].UsageKey() == k {
          ReleaseOwn(s.usage, s.outstanding, id);
        } else {
          ReleaseOther(s.usage, s.outstanding, id, k);
        }
      }
    case _ =>
      forall k: Key
        ensures KeyConserved(Apply(s, op, monthStart).usage, Apply(s, op, monthStart).outstanding, k)
      {
        assert KeyConserved(s.usage, s.outstanding, k);
      }
  }

  // ---- Histories ----

  datatype History = History(states: seq<Ledger>, ops: seq<Op>)

  ghost predicate Valid(h: History, monthStart: int -> int) {
    && |h.states| == |h.ops| + 1
    && h.states[0].usage == map[] && h.states[0].outstanding == map[]
    && forall i :: 0 <= i < |h.ops| ==>
         Enabled(h.states[i], h.ops[i]) && h.states[i + 1] == Apply(h.states[i], h.ops[i], monthStart)
  }

  /** The clock shows the time of the latest tick. */
  lemma ClockFollowsTicks(h: History, monthStart: int -> int, i: nat)
    requires Valid(h, monthStart) && i < |h.ops|
    ensures h.states[i + 1].now == if h.ops[i].Tick? then h.ops[i].to else h.states[i].now
  {
  }

  lemma EmptyConserved(s: Ledger)
    requires s.usage == map[] && s.outstanding == map[]
    ensures Conserved(s)
  {
    forall k: Key
      ensures KeyConserved(s.usage, s.outstanding, k)
    {
      assert Holders(map[], k) == {} && Flagged(map[], k) == {};
    }
  }

  /** In every reachable state the counters equal the outstanding tickets, period by period. */
  lemma {:induction false} AlwaysConserved(h: History, monthStart: int -> int, i: nat)
    requires Valid(h, monthStart) && i < |h.states|
    ensures Conserved(h.states[i])
  {
    if i == 0 {
      EmptyConserved(h.states[0]);
    } else {
      AlwaysConserved(h, monthStart, i - 1);
      StepConserves(h.states[i - 1], h.ops[i - 1], monthStart);
    }
  }

  function Unflagged(o: map<Id, Ticket>, k: Key): set<Id> {
    set id | id in o && o[id].UsageKey() == k && !o[id].overage
  }

  ghost predicate FixedLimit(h: History, limit: int) {
    forall i :: 0 <= i < |h.ops| && h.ops[i].Consume? ==> h.ops[i].limit == limit
  }

  lemma UnflaggedStep(s: Ledger, op: Op, monthStart: int -> int, limit: int, k: Key)
    requires Conserved(s) && Enabled(s, op)
    requires op.Consume? ==> op.limit == limit
    requires |Unflagged(s.outstanding, k)| <= Max0(limit)
    ensures |Unflagged(Apply(s, op, monthStart).outstanding, k)| <= Max0(limit)
  {
    var o, o' := s.outstanding, Apply(s, op, monthStart).outstanding;
    if op.Consume? && op.workspace in s.metered {
      UnflaggedIssue(s, o, op.ticket, Issued(s, op.workspace, limit, monthStart), limit, k);
    } else {
      assert Unflagged(o', k) <= Unflagged(o, k);
      SubsetSize(Unflagged(o', k), Unflagged(o, k));
    }
  }

  /** An unflagged ticket is issued only while the count, and so the unflagged tickets, stay within the limit. */
  lemma UnflaggedIssue(s: Ledger, o: map<Id, Ticket>, id: Id, t: Ticket, limit: int, k: Key)
    requires KeyConserved(s.usage, o, k) && |Unflagged(o, k)| <= Max0(limit)
    requires t.UsageKey() == k ==> t.overage == (Current(s.usage, k).runs + 1 > limit)
    ensures |Unflagged(o[id := t], k)| <= Max0(limit)
  {
    var o' := o[id := t];
    SubsetSize(Unflagged(o, k), Holders(o, k));
    if t.UsageKey() == k && !t.overage {
      assert Unflagged(o', k) <= Unflagged(o, k) + {id};
      SubsetSize(Unflagged(o', k), Unflagged(o, k) + {id});
    } else {
      assert Unflagged(o', k) <= Unflagged(o, k);
      SubsetSize(Unflagged(o', k), Unflagged(o, k));
    }
  }

  /**
   Under a fixed limit at most `limit` unflagged tickets of a period are ever outstanding,
   so every run beyond the limit is on the overage counter.
   */
  lemma {:induction false} OverageCoversTheExcess(h: History, monthStart: int -> int, limit: int, k: Key, i: nat)
    requires Valid(h, monthStart) && i < |h.states| && FixedLimit(h, limit)
    ensures |Unflagged(h.states[i].outstanding, k)| <= Max0(limit)
    ensures
      var u := Current(h.states[i].usage, k);
      u.overage >= u.runs - Max0(limit)
  {
    if i == 0 {
      assert Unflagged(map[], k) == {};
    } else {
      OverageCoversTheExcess(h, monthStart, limit, k, i - 1);
      AlwaysConserved(h, monthStart, i - 1);
      UnflaggedStep(h.states[i - 1], h.ops[i - 1], monthStart, limit, k);
    }
    AlwaysConserved(h, monthStart, i);
    var o := h.states[i].outstanding;
    assert Holders(o, k) == Flagged(o, k) + Unflagged(o, k);
    assert Flagged(o, k) !! Unflagged(o, k);
    assert KeyConserved(h.states[i].usage, o, k);
  }

  /** Releasing a ticket right after it was issued restores every counter. */
  lemma ConsumeThenReleaseIsNeutral(s: Ledger, w: Id, limit: int, id: Id, monthStart: int -> int)
    requires Conserved(s) && id !in s.outstanding
    requires w in s.metered
    ensures
      var s' := Apply(s, Consume(w, limit, id), monthStart);
      Apply(s', Release(id), monthStart) == s
  {
    var t := Issued(s, w, limit, monthStart);
    var k := t.UsageKey();
    assert KeyConserved(s.usage, s.outstanding, k);
    FlaggedHold(s.outstanding, k);
    var s' := Apply(s, Consume(w, limit, id), monthStart);
    var s'' := Apply(s', Release(id), monthStart);
    assert s''.outstanding == s.outstanding;
    if k !in s.usage {
      assert Holders(s.outstanding, k) == {};
      assert s''.usage == s.usage;
    } else {
      assert Holders(s.outstanding, k) != {};
      assert s''.usage == s.usage;
    }
  }

  /** The ledger after a ticket is released once more, although it is no longer outstanding. */
  function ReleasedAgain(s: Ledger, t: Ticket): Ledger {
    s.(usage := Released(s.usage, t.UsageKey(), t.overage))
  }

  /**
   Releasing a ticket a second time keeps the ledger conserved if and only if no other ticket
   of its period is out; a caller sees this by the period having no row.
   */
  lemma SecondReleaseIsHarmless(s: Ledger, t: Ticket)
    requires Conserved(s)
    ensures Conserved(ReleasedAgain(s, t)) <==> Holders(s.outstanding, t.UsageKey()) == {}
    ensures Conserved(ReleasedAgain(s, t)) <==> t.UsageKey() !in s.usage
  {
    var k := t.UsageKey();
    assert KeyConserved(s.usage, s.outstanding, k);
    if Holders(s.outstanding, k) == {} {
      assert ReleasedAgain(s, t) == s;
    } else {
      assert !KeyConserved(ReleasedAgain(s, t).usage, s.outstanding, k);
    }
  }

  /** A ledger with one metered workspace and no ticket issued yet. */
  function NewLedger(w: Id): Ledger {
    Ledger(map[], map[], {w}, 0, map[])
  }

  /** Two tickets of one period, the first released twice: the second is still out and nothing counts it. */
  lemma DoubleReleaseBreaksConservation(w: Id, limit: int, monthStart: int -> int, s: Ledger, t: Ticket)
    requires
      var one := Apply(NewLedger(w), Consume(w, limit, 0), monthStart);
      var two := Apply(one, Consume(w, limit, 1), monthStart);
      t == two.outstanding[0] && s == Apply(two, Release(0), monthStart)
    ensures Conserved(s) && s.outstanding.Keys == {1} && Current(s.usage, t.UsageKey()).runs == 1
    ensures !Conserved(ReleasedAgain(s, t)) && Current(ReleasedAgain(s, t).usage, t.UsageKey()).runs == 0
  {
    EmptyConserved(NewLedger(w));
    var one := Apply(NewLedger(w), Consume(w, limit, 0), monthStart);
    StepConserves(NewLedger(w), Consume(w, limit, 0), monthStart);
    var two := Apply(one, Consume(w, limit, 1), monthStart);
    StepConserves(one, Consume(w, limit, 1), monthStart);
    StepConserves(two, Release(0), monthStart);
    assert s.outstanding[1].UsageKey() == t.UsageKey();
    assert 1 in Holders(s.outstanding, t.UsageKey());
    SecondReleaseIsHarmless(s, t);
    assert Holders(s.outstanding, t.UsageKey()) == {1};
    assert KeyConserved(s.usage, s.outstanding, t.UsageKey());
  }

  // ---- What a ticket says ----

  /** A consume by a metered workspace. */
  ghost predicate Consumes(h: History, j: int, w: Id, limit: int, id: Id) {
    && 0 <= j < |h.ops| < |h.states|
    && h.ops[j] == Consume(w, limit, id) && w in h.states[j].metered
  }

  /**
   A ticket counts the tickets of its workspace and period that are out, itself included, and is
   flagged when that passes the limit it was asked for.
   */
  lemma TicketCountsItsPeriod(
      h: History, monthStart: int -> int, j: nat, w: Id, limit: int, id: Id, t: Ticket, o: map<Id, Ticket>)
    requires Valid(h, monthStart) && Consumes(h, j, w, limit, id) && o == h.states[j].outstanding
    requires t == h.states[j + 1].outstanding[id]
    ensures h.states[j + 1].outstanding == o[id := t]
    ensures t.workspace == w && t.limit == limit && t.overage == (t.runCount > limit)
    ensures t.runCount == 1 + |set i | i in o && o[i].workspace == w && o[i].period == t.period|
    ensures t.overageCount == (if t.overage then 1 else 0)
                            + |set i | i in o && o[i].workspace == w && o[i].period == t.period && o[i].overage|
  {
    AlwaysConserved(h, monthStart, j);
    var s, k := h.states[j], Key(w, t.period);
    assert h.states[j + 1] == Apply(s, h.ops[j], monthStart);
    assert t == Issued(s, w, limit, monthStart) && t.UsageKey() == k;
    assert KeyConserved(s.usage, o, k);
    assert Holders(o, k) == set i | i in o && o[i].workspace == w && o[i].period == t.period;
    assert Flagged(o, k) == set i | i in o && o[i].workspace == w && o[i].period == t.period && o[i].overage;
  }

  /** Without a billing cycle a ticket is for the calendar month of its consume. */
  lemma MonthlyWithoutCycle(h: History, monthStart: int -> int, j: nat, w: Id, limit: int, id: Id)
    requires Valid(h, monthStart) && Consumes(h, j, w, limit, id) && w !in h.states[j].cycles
    ensures id in h.states[j + 1].outstanding
    ensures h.states[j + 1].outstanding[id].period == monthStart(h.states[j].now)
  {
    assert h.states[j + 1] == Apply(h.states[j], h.ops[j], monthStart);
  }

  /** With one, it is for the cycle's start until the cycle ends, and for its end from then on. */
  lemma CycleDecidesPeriod(h: History, monthStart: int -> int, j: nat, w: Id, limit: int, id: Id)
    requires Valid(h, monthStart) && Consumes(h, j, w, limit, id) && w in h.states[j].cycles
    ensures id in h.states[j + 1].outstanding
    ensures
      var cycle := h.states[j].cycles[w];
      h.states[j + 1].outstanding[id].period == if h.states[j].now < cycle.end then cycle.start else cycle.end
  {
    assert h.states[j + 1] == Apply(h.states[j], h.ops[j], monthStart);
  }

  /** Steps from i up to j that neither issue nor release a ticket of this workspace. */
  ghost predicate Untouched(h: History, i: int, j: int, w: Id) {
    forall m :: 0 <= i <= m < j <= |h.ops| < |h.states| ==>
      && !(h.ops[m].Consume? && h.ops[m].workspace == w)
      && !(h.ops[m].Release? && h.ops[m].ticket in h.states[m].outstanding
           && h.states[m].outstanding[h.ops[m].ticket].workspace == w)
  }

  lemma UntouchedStep(s: Ledger, op: Op, monthStart: int -> int, w: Id, period: int)
    requires Enabled(s, op)
    requires !(op.Consume? && op.workspace == w)
    requires !(op.Release? && s.outstanding[op.ticket].workspace == w)
    ensures Current(Apply(s, op, monthStart).usage, Key(w, period)) == Current(s.usage, Key(w, period))
  {
  }

  lemma {:induction false} UntouchedKeepsCounts(h: History, monthStart: int -> int, i: nat, j: nat, w: Id, period: int)
    requires Valid(h, monthStart) && i <= j < |h.states| && Untouched(h, i, j, w)
    ensures Current(h.states[j].usage, Key(w, period)) == Current(h.states[i].usage, Key(w, period))
    decreases j - i
  {
    if i < j {
      UntouchedKeepsCounts(h, monthStart, i, j - 1, w, period);
      UntouchedStep(h.states[j - 1], h.ops[j - 1], monthStart, w, period);
    }
  }

  lemma IssuedCount(h: History, monthStart: int -> int, j: nat, w: Id, limit: int, id: Id, t: Ticket)
    requires Valid(h, monthStart) && Consumes(h, j, w, limit, id)
    requires t == h.states[j + 1].outstanding[id]
    ensures t.workspace == w && t.runCount == Current(h.states[j].usage, Key(w, t.period)).runs + 1
    ensures Current(h.states[j + 1].usage, Key(w, t.period)).runs == t.runCount
  {
    assert h.states[j + 1] == Apply(h.states[j], h.ops[j], monthStart);
    var s := h.states[j];
    ConsumeCountsItsTicket(s, w, limit, id, monthStart);
    assert t == Issued(s, w, limit, monthStart);
    assert t.workspace == w && t.UsageKey() == Key(w, t.period);
    assert Current(h.states[j + 1].usage, t.UsageKey()) == Usage(t.runCount, t.overageCount);
  }

  /**
   Without a billing cycle, two consumes within one calendar month, with nothing of the workspace
   issued or released between, get consecutive run counts under one period.
   */
  lemma MonthAccumulates(
      h: History, monthStart: int -> int, i: nat, j: nat, w: Id, limit: int, limit': int, a: Id, b: Id, s: Ticket, t: Ticket)
    requires Valid(h, monthStart) && i < j && Consumes(h, i, w, limit, a) && Consumes(h, j, w, limit', b)
    requires w !in h.states[i].cycles && w !in h.states[j].cycles && Untouched(h, i + 1, j, w)
    requires monthStart(h.states[i].now) == monthStart(h.states[j].now)
    requires s == h.states[i + 1].outstanding[a] && t == h.states[j + 1].outstanding[b]
    ensures s.workspace == t.workspace == w && s.period == t.period == monthStart(h.states[i].now)
    ensures t.runCount == s.runCount + 1
  {
    MonthlyWithoutCycle(h, monthStart, i, w, limit, a);
    MonthlyWithoutCycle(h, monthStart, j, w, limit', b);
    IssuedCount(h, monthStart, i, w, limit, a, s);
    IssuedCount(h, monthStart, j, w, limit', b, t);
    UntouchedKeepsCounts(h, monthStart, i + 1, j, w, s.period);
  }

  // ---- Billing windows ----

  ghost predicate Increasing(bounds: nat -> int) {
    forall a: nat, b: nat :: a < b ==> bounds(a) < bounds(b)
  }

  /** Step `i` syncs window `k` of a workspace at a time inside that window. */
  ghost predicate Syncs(h: History, i: int, w: Id, bounds: nat -> int, k: nat) {
    && 0 <= i < |h.ops| < |h.states|
    && h.ops[i] == Sync(w, bounds(k), bounds(k + 1))
    && bounds(k) <= h.states[i].now < bounds(k + 1)
  }

  ghost predicate SyncedBetween(h: History, i: int, j: int, w: Id, bounds: nat -> int, k: nat) {
    exists m :: i < m < j && Syncs(h, m, w, bounds, k)
  }

  /** Contiguous cycles: every sync falls in its own window, none is cleared, none is skipped. */
  ghost predicate Contiguous(h: History, w: Id, bounds: nat -> int) {
    && Increasing(bounds)
    && (forall i :: 0 <= i < |h.ops| && h.ops[i].Sync? && h.ops[i].workspace == w ==> exists k :: Syncs(h, i, w, bounds, k))
    && (forall i :: 0 <= i < |h.ops| ==> h.ops[i] != ClearCycle(w))
    && (forall i, j, k: nat :: 0 <= i < j < |h.ops| < |h.states| && Syncs(h, i, w, bounds, k) && h.states[j].now >= bounds(k + 2) ==>
          SyncedBetween(h, i, j, w, bounds, k + 1))
  }

  lemma {:induction false} CycleStays(h: History, monthStart: int -> int, w: Id, i: nat, j: nat)
    requires Valid(h, monthStart) && i <= j < |h.states| && w in h.states[i].cycles
    requires forall m :: i <= m < j ==> h.ops[m] != ClearCycle(w) && !(h.ops[m].Sync? && h.ops[m].workspace == w)
    ensures w in h.states[j].cycles && h.states[j].cycles[w] == h.states[i].cycles[w]
    decreases j - i
  {
    if i < j {
      CycleStays(h, monthStart, w, i, j - 1);
    }
  }

  lemma {:induction false} ClockForward(h: History, monthStart: int -> int, i: nat, j: nat)
    requires Valid(h, monthStart) && i <= j < |h.states|
    ensures h.states[i].now <= h.states[j].now
    decreases j - i
  {
    if i < j {
      ClockForward(h, monthStart, i, j - 1);
    }
  }

  lemma {:induction false} LastSync(h: History, w: Id, i: nat, j: nat) returns (l: nat)
    requires i < j <= |h.ops| && h.ops[i].Sync? && h.ops[i].workspace == w
    ensures i <= l < j && h.ops[l].Sync? && h.ops[l].workspace == w
    ensures forall m :: l < m < j ==> !(h.ops[m].Sync? && h.ops[m].workspace == w)
    decreases j
  {
    if h.ops[j - 1].Sync? && h.ops[j - 1].workspace == w {
      l := j - 1;
    } else {
      l := LastSync(h, w, i, j - 1);
    }
  }

  lemma NotSyncedBetween(h: History, l: nat, j: nat, w: Id, bounds: nat -> int, k: nat)
    requires j < |h.ops|
    requires forall m :: l < m < j ==> !(h.ops[m].Sync? && h.ops[m].workspace == w)
    ensures !SyncedBetween(h, l, j, w, bounds, k)
  {
  }

  /** The window of the latest sync before a step, and the cycle stored at that step. */
  lemma StoredWindow(h: History, monthStart: int -> int, w: Id, bounds: nat -> int, i: nat, j: nat) returns (k: nat)
    requires Valid(h, monthStart) && Contiguous(h, w, bounds)
    requires i < j < |h.ops| && h.ops[i].Sync? && h.ops[i].workspace == w
    ensures bounds(k) <= h.states[j].now < bounds(k + 2)
    ensures w in h.states[j].cycles && h.states[j].cycles[w] == Cycle(bounds(k), bounds(k + 1))
  {
    var l := LastSync(h, w, i, j);
    k :| Syncs(h, l, w, bounds, k);
    ClockNearLastSync(h, monthStart, w, bounds, l, j, k);
  }

  /** The window containing the clock is the stored one or the next; either way its start is what a ticket gets. */
  lemma TicketWindow(s: Ledger, w: Id, limit: int, monthStart: int -> int, bounds: nat -> int, k: nat) returns (q: nat)
    requires bounds(k) <= s.now < bounds(k + 2)
    requires w in s.cycles && s.cycles[w] == Cycle(bounds(k), bounds(k + 1))
    ensures bounds(q) <= s.now < bounds(q + 1)
    ensures Issued(s, w, limit, monthStart).UsageKey() == Key(w, bounds(q))
  {
    q := if s.now >= bounds(k + 1) then k + 1 else k;
  }

  /** Between its sync and the next one, a window or its successor contains the clock. */
  lemma ClockNearLastSync(h: History, monthStart: int -> int, w: Id, bounds: nat -> int, l: nat, j: nat, k: nat)
    requires Valid(h, monthStart) && Contiguous(h, w, bounds)
    requires l < j < |h.ops| && Syncs(h, l, w, bounds, k)
    requires forall m :: l < m < j ==> !(h.ops[m].Sync? && h.ops[m].workspace == w)
    ensures bounds(k) <= h.states[j].now < bounds(k + 2)
    ensures w in h.states[j].cycles && h.states[j].cycles[w] == Cycle(bounds(k), bounds(k + 1))
  {
    ClockForward(h, monthStart, l, j);
    CycleStays(h, monthStart, w, l + 1, j);
    NotSyncedBetween(h, l, j, w, bounds, k + 1);
  }

  /** A consume counts one run under the period of the ticket it issues, and under no other. */
  lemma ConsumeCountsItsTicket(s: Ledger, w: Id, limit: int, id: Id, monthStart: int -> int)
    requires id !in s.outstanding && w in s.metered
    ensures
      var t := Issued(s, w, limit, monthStart);
      var s' := Apply(s, Consume(w, limit, id), monthStart);
      && s'.outstanding == s.outstanding[id := t]
      && Current(s'.usage, t.UsageKey()) == Usage(t.runCount, t.overageCount)
      && t.runCount == Current(s.usage, t.UsageKey()).runs + 1
      && forall k :: k != t.UsageKey() ==> Current(s'.usage, k) == Current(s.usage, k)
  {
  }

  /**
   For contiguous cycles a ticket is issued for the start of the window that contains its
   consume time, whether that window was already synced or the previous one still is.
   */
  lemma CountedInItsWindow(
      h: History, monthStart: int -> int, w: Id, limit: int, bounds: nat -> int, i: nat, j: nat) returns (q: nat)
    requires Valid(h, monthStart) && Contiguous(h, w, bounds)
    requires i < j < |h.ops| && h.ops[i].Sync? && h.ops[i].workspace == w
    ensures bounds(q) <= h.states[j].now < bounds(q + 1)
    ensures Issued(h.states[j], w, limit, monthStart).UsageKey() == Key(w, bounds(q))
  {
    var k := StoredWindow(h, monthStart, w, bounds, i, j);
    q := TicketWindow(h.states[j], w, limit, monthStart, bounds, k);
  }

  /** A release, however late, takes one run off the period its ticket was issued under and nothing else. */
  lemma ReleaseHitsTheIssuingPeriod(s: Ledger, id: Id, monthStart: int -> int)
    requires Conserved(s) && id in s.outstanding
    ensures
      var t := s.outstanding[id];
      var after := Apply(s, Release(id), monthStart).usage;
      && Current(after, t.UsageKey()).runs == Current(s.usage, t.UsageKey()).runs - 1
      && Current(after, t.UsageKey()).overage == Current(s.usage, t.UsageKey()).overage - (if t.overage then 1 else 0)
      && forall k :: k != t.UsageKey() ==> Current(after, k) == Current(s.usage, k)
  {
    var t := s.outstanding[id];
    var k := t.UsageKey();
    assert KeyConserved(s.usage, s.outstanding, k);
    assert id in Holders(s.outstanding, k);
    FlaggedHold(s.outstanding, k);
    if t.overage {
      assert id in Flagged(s.outstanding, k);
    }
  }
}
