/**
 Schedules: the next time a workflow runs, and the schedule row built on it
 (backend/src/utils/schedule.rs:103-133, backend/src/db/postgres_workflow_repository.rs:1496-1599,
 backend/src/worker/mod.rs:313-560, backend/src/routes/workflows/helpers.rs:119-196).
 Times are nanoseconds; `max` is the largest representable one.
 */
module Schedules {
  import opened Wrappers

  const SECOND: int := 1_000_000_000
  const MINUTE: int := 60 * SECOND

  datatype RepeatUnit = Minutes | Hours | Days | Weeks {
    function Length(): (n: int)
      ensures n >= MINUTE
    {
      match this
      case Minutes => 60 * SECOND
      case Hours => 3_600 * SECOND
      case Days => 86_400 * SECOND
      case Weeks => 604_800 * SECOND
    }

    /** `to_duration` counts at least one unit. */
    function ToDuration(every: int): int {
      (if every < 1 then 1 else every) * Length()
    }
  }

  /** The unit is None when its name is not recognised. */
  datatype Repeat = Repeat(every: int, unit: Option<RepeatUnit>)

  /** The start is None when the date, time or zone does not parse. */
  datatype Config = Config(start: Option<int>, repeat: Option<Repeat>)

  function NormalizeRepeat(cfg: Config): Option<(int, RepeatUnit)> {
    match cfg.repeat
    case Some(Repeat(every, Some(unit))) => if every <= 0 then None else Some((every, unit))
    case _ => None
  }

  /** The repeat interval of a configuration, if it has a valid one. */
  function Interval(cfg: Config): (d: Option<int>)
    ensures d.Some? ==> d.value >= MINUTE
  {
    match NormalizeRepeat(cfg)
    case None => None
    case Some((every, unit)) =>
      MinuteAtLeast(every, unit);
      Some(unit.ToDuration(every))
  }

  lemma MinuteAtLeast(every: int, unit: RepeatUnit)
    ensures unit.ToDuration(every) >= MINUTE
  {
    MulMonotone(1, if every < 1 then 1 else every, unit.Length());
  }

  /** The longest duration the time library holds, in whole seconds; constructing a longer one panics. */
  const LONGEST: int := (0x7FFF_FFFF_FFFF_FFFF / 1000) * SECOND

  datatype Computed = Next(at: Option<int>) | Panicked

  function AddInterval(dt: int, every: int, unit: RepeatUnit, max: int): Computed {
    if unit.ToDuration(every) > LONGEST then Panicked
    else Next(if dt + unit.ToDuration(every) > max then None else Some(dt + unit.ToDuration(every)))
  }

  // ---- The closed form ----

  function StepsTo(base: int, now: int, d: int): nat
    requires d > 0
  {
    if base >= now then 0 else (now - base + d - 1) / d
  }

  /** base + k*d for the least k >= 0 that is not before `now`. */
  function FirstDue(base: int, now: int, d: int): int
    requires d > 0
  {
    base + StepsTo(base, now, d) * d
  }

  lemma FirstDueBounds(base: int, now: int, d: int)
    requires d > 0
    ensures FirstDue(base, now, d) >= now && FirstDue(base, now, d) >= base
    ensures base < now ==> FirstDue(base, now, d) < now + d
  {
  }

  /** It is the least of the times base + k*d at or after now. */
  lemma FirstDueIsLeast(base: int, now: int, d: int, k: nat)
    requires d > 0 && base + k * d >= now
    ensures now <= FirstDue(base, now, d) <= base + k * d
  {
    FirstDueBounds(base, now, d);
    var s := StepsTo(base, now, d);
    assert (s - 1) * d == s * d - d;
    if k <= s - 1 {
      MulMonotone(k, s - 1, d);
    } else {
      MulMonotone(s, k, d);
    }
  }

  lemma MulMonotone(a: int, b: int, d: int)
    requires a <= b && d > 0
    ensures a * d <= b * d
  {
  }

  lemma QuotientIs(n: int, d: int, q: int)
    requires d > 0 && q * d <= n < (q + 1) * d
    ensures n / d == q
  {
    var p := n / d;
    assert p * d <= n < (p + 1) * d by {
      assert n == p * d + n % d && (p + 1) * d == p * d + d;
    }
    if p < q {
      MulMonotone(p + 1, q, d);
    } else if q < p {
      MulMonotone(q + 1, p, d);
    }
  }

  lemma DivShift(x: int, d: int)
    requires d > 0
    ensures (x + d) / d == x / d + 1
  {
    var q := x / d;
    assert x == q * d + x % d;
    assert (q + 1) * d == q * d + d && (q + 2) * d == q * d + d + d;
    QuotientIs(x + d, d, q + 1);
  }

  /** Moving the base one interval on, while it is still before now, saves one step. */
  lemma StepsShift(base: int, now: int, d: int)
    requires d > 0 && base < now
    ensures StepsTo(base, now, d) == StepsTo(base + d, now, d) + 1
  {
    DivShift(now - base - 1, d);
  }

  /** So it leads to the same time. */
  lemma FirstDueShift(base: int, now: int, d: int)
    requires d > 0 && base < now
    ensures FirstDue(base + d, now, d) == FirstDue(base, now, d)
    ensures FirstDue(base, now, d) >= base + d
  {
    var t := StepsTo(base + d, now, d);
    StepsShift(base, now, d);
    assert (t + 1) * d == t * d + d;
    MulMonotone(0, t, d);
  }

  function Later(a: int, b: int): int {
    if a < b then b else a
  }

  function Representable(v: int, max: int): Option<int> {
    if v > max then None else Some(v)
  }

  /** An interval too long for a duration is added at all. */
  predicate Panics(cfg: Config, last: Option<int>, now: int) {
    && cfg.start.Some? && Interval(cfg).Some? && Interval(cfg).value > LONGEST
    && (last.Some? || cfg.start.value < now)
  }

  /** What `compute_next_run` returns when it does not panic, without the stepping. */
  function NextRun(cfg: Config, last: Option<int>, now: int, max: int): Option<int> {
    match cfg.start
    case None => None
    case Some(start) =>
      match (last, Interval(cfg))
      case (Some(l), None) => None
      case (Some(l), Some(d)) =>
        if l + d > max then None else Representable(FirstDue(Later(start, l + d), now, d), max)
      case (None, Some(d)) => Representable(FirstDue(start, now, d), max)
      case (None, None) => Some(start)
  }

  /** The stepping loop, from a base that is representable. */
  method StepUntil(base: int, now: int, every: int, unit: RepeatUnit, max: int) returns (r: Computed)
    requires base <= max && every > 0
    ensures unit.ToDuration(every) > 0
    ensures r == if base < now && unit.ToDuration(every) > LONGEST then Panicked
                 else Next(Representable(FirstDue(base, now, unit.ToDuration(every)), max))
  {
    MinuteAtLeast(every, unit);
    ghost var d := unit.ToDuration(every);
    var candidate := base;
    while candidate < now
      invariant FirstDue(candidate, now, d) == FirstDue(base, now, d)
      invariant candidate <= max && (candidate > base ==> d <= LONGEST) && candidate >= base
      decreases now - candidate
    {
      FirstDueShift(candidate, now, d);
      var next := AddInterval(candidate, every, unit, max);
      if next.Panicked? { return Panicked; }
      if next.at.None? { return Next(None); }
      candidate := next.at.value;
    }
    assert StepsTo(candidate, now, d) * d == 0;
    return Next(Some(candidate));
  }

  /** Terminates and returns the closed form, for every start and last run that are representable. */
  method ComputeNextRun(cfg: Config, last: Option<int>, now: int, max: int) returns (next: Computed)
    requires cfg.start.Some? ==> cfg.start.value <= max
    ensures next == if Panics(cfg, last, now) then Panicked else Next(NextRun(cfg, last, now, max))
  {
    if cfg.start.None? { return Next(None); }
    var start := cfg.start.value;
    var repeat := NormalizeRepeat(cfg);
    if last.Some? {
      if repeat.None? { return Next(None); }
      var (every, unit) := repeat.value;
      var candidate := AddInterval(last.value, every, unit, max);
      if candidate.Panicked? { return Panicked; }
      if candidate.at.None? { return Next(None); }
      next := StepUntil(if candidate.at.value < start then start else candidate.at.value, now, every, unit, max);
    } else if start >= now {
      assert Interval(cfg).Some? ==> StepsTo(start, now, Interval(cfg).value) * Interval(cfg).value == 0;
      next := Next(Some(start));
    } else if repeat.Some? {
      var (every, unit) := repeat.value;
      next := StepUntil(start, now, every, unit, max);
    } else {
      next := Next(Some(start));
    }
  }

  // ---- The schedule row ----

  datatype Schedule = Schedule(config: Config, nextRun: Option<int>, lastRun: Option<int>, enabled: bool)

  /** The condition under which `list_due_schedules` returns a row. */
  predicate IsDue(s: Schedule, now: int) {
    s.enabled && s.nextRun.Some? && s.nextRun.value <= now
  }

  function Disabled(s: Schedule): Schedule {
    s.(enabled := false, nextRun := None)
  }

  function Marked(s: Schedule, last: int, next: Option<int>): Schedule {
    s.(lastRun := Some(last), nextRun := next, enabled := next.Some?)
  }

  function Upserted(s: Option<Schedule>, cfg: Config, next: int): Schedule {
    Schedule(cfg, Some(next), if s.Some? then s.value.lastRun else None, true)
  }

  /** Firing a due schedule: the due time is the last run the next one is computed from. */
  function Fired(s: Schedule, now: int, max: int): Schedule
    requires IsDue(s, now)
  {
    Marked(s, now, NextRun(s.config, s.nextRun, now, max))
  }

  /** Saving the workflow: recompute from the recorded last run, or disable. */
  function Synced(s: Option<Schedule>, cfg: Option<Config>, now: int, max: int): Option<Schedule> {
    var last := if s.Some? then s.value.lastRun else None;
    var next := if cfg.Some? then NextRun(cfg.value, last, now, max) else None;
    if next.Some? then Some(Upserted(s, cfg.value, next.value))
    else if s.Some? then Some(Disabled(s.value)) else None
  }

  predicate SavePanics(s: Option<Schedule>, cfg: Option<Config>, now: int) {
    cfg.Some? && Panics(cfg.value, if s.Some? then s.value.lastRun else None, now)
  }

  class ScheduleStore {
    var row: Option<Schedule>

    constructor ()
      ensures row == None
    {
      row := None;
    }

    method Upsert(cfg: Config, next: int)
      modifies this
      ensures row == Some(Upserted(old(row), cfg, next))
    {
      row := Some(match row
        case Some(s) => s.(config := cfg, nextRun := Some(next), enabled := true)
        case None => Schedule(cfg, Some(next), None, true));
    }

    method Disable()
      modifies this
      ensures row == if old(row).Some? then Some(Disabled(old(row).value)) else None
    {
      if row.Some? {
        row := Some(row.value.(enabled := false, nextRun := None));
      }
    }

    method MarkRun(last: int, next: Option<int>)
      modifies this
      ensures row == if old(row).Some? then Some(Marked(old(row).value, last, next)) else None
    {
      if row.Some? {
        row := Some(row.value.(lastRun := Some(last), nextRun := next, enabled := next.Some?));
      }
    }

    /** `trigger_schedule` after the run was created; a panic leaves the row as it was. */
    method Trigger(now: int, max: int)
      requires row.Some? && IsDue(row.value, now)
      requires row.value.config.start.Some? ==> row.value.config.start.value <= max
      modifies this
      ensures
        var s := old(row).value;
        row == if Panics(s.config, s.nextRun, now) then old(row) else Some(Fired(s, now, max))
    {
      var next := ComputeNextRun(row.value.config, row.value.nextRun, now, max);
      if next.Next? {
        MarkRun(now, next.at);
      }
    }

    /** `sync_workflow_schedule_inner`; a panic leaves the row as it was. */
    method Sync(cfg: Option<Config>, now: int, max: int)
      requires cfg.Some? && cfg.value.start.Some? ==> cfg.value.start.value <= max
      modifies this
      ensures row == if SavePanics(old(row), cfg, now) then old(row) else Synced(old(row), cfg, now, max)
    {
      if cfg.None? {
        Disable();
        return;
      }
      var last := if row.Some? then row.value.lastRun else None;
      var next := ComputeNextRun(cfg.value, last, now, max);
      match next
      case Panicked =>
      case Next(Some(at)) => Upsert(cfg.value, at);
      case Next(None) => Disable();
    }
  }

  // ---- Histories of one schedule ----

  datatype Op =
    | Fire(created: bool)             // the run may be skipped
    | FailedFire(created: bool)       // an error or a panic ended the firing before the row was marked
    | Save(config: Option<Config>)
    | Disable

  /** The rows seen, the clock at each step, and the steps. */
  datatype History = History(rows: seq<Option<Schedule>>, clock: seq<int>, ops: seq<Op>)

  predicate Enabled(row: Option<Schedule>, op: Op, now: int) {
    && (IsAttempt(op) ==> row.Some? && IsDue(row.value, now))
    && (op.Fire? ==> !Panics(row.value.config, row.value.nextRun, now))
    && (op.Save? ==> !SavePanics(row, op.config, now))
  }

  /** A firing, whether or not it got as far as marking the row. */
  predicate IsAttempt(op: Op) {
    op.Fire? || op.FailedFire?
  }

  function Apply(row: Option<Schedule>, op: Op, now: int, max: int): Option<Schedule>
    requires Enabled(row, op, now)
  {
    match op
    case Fire(_) => Some(Fired(row.value, now, max))
    case FailedFire(_) => row
    case Save(cfg) => Synced(row, cfg, now, max)
    case Disable => if row.Some? then Some(Disabled(row.value)) else None
  }

  ghost predicate Valid(h: History, max: int) {
    && |h.rows| == |h.ops| + 1 && |h.clock| == |h.ops|
    && h.rows[0] == None
    && (forall i, j :: 0 <= i <= j < |h.ops| ==> h.clock[i] <= h.clock[j])
    && (forall i :: 0 <= i < |h.ops| ==>
          Enabled(h.rows[i], h.ops[i], h.clock[i]) && h.rows[i + 1] == Apply(h.rows[i], h.ops[i], h.clock[i], max))
  }

  // ---- What a repeat means ----

  /** `every` units are this many nanoseconds. */
  predicate Lasts(every: int, unit: RepeatUnit, ns: int) {
    match unit
    case Minutes => ns == every * 60_000_000_000
    case Hours => ns == every * 3_600_000_000_000
    case Days => ns == every * 86_400_000_000_000
    case Weeks => ns == every * 604_800_000_000_000
  }

  /** A schedule that repeats every `ns` from a start, short enough for a duration. */
  ghost predicate RepeatsEvery(cfg: Config, start: int, ns: int) {
    && cfg.start == Some(start)
    && (exists every, unit :: cfg.repeat == Some(Repeat(every, Some(unit))) && every > 0 && Lasts(every, unit, ns))
    && ns <= 9_223_372_036_854_775_000_000_000
  }

  lemma RepeatIsInterval(cfg: Config, start: int, ns: int)
    requires RepeatsEvery(cfg, start, ns)
    ensures Interval(cfg) == Some(ns) && ns >= MINUTE && ns <= LONGEST
  {
  }

  /** An interval too long for a duration panics at a firing, or when the start is past, and then the row stays. */
  lemma TooLongPanics(cfg: Config, every: int, unit: RepeatUnit, ns: int, s: Schedule, now: int)
    requires cfg.start.Some? && cfg.repeat == Some(Repeat(every, Some(unit))) && every > 0 && Lasts(every, unit, ns)
    requires ns > 9_223_372_036_854_775_000_000_000
    ensures s.config == cfg && s.nextRun.Some? ==> !Enabled(Some(s), Fire(true), now) && !Enabled(Some(s), Fire(false), now)
    ensures cfg.start.value < now || s.lastRun.Some? ==> !Enabled(Some(s), Save(Some(cfg)), now)
  {
    assert NormalizeRepeat(cfg) == Some((every, unit));
    assert Interval(cfg) == Some(ns);
  }

  /** Only a schedule that is enabled and due is fired. */
  lemma OnlyDueSchedulesFire(s: Schedule, op: Op, now: int)
    requires IsAttempt(op) && Enabled(Some(s), op, now)
    ensures s.enabled && s.nextRun.Some? && s.nextRun.value <= now
  {
  }

  /** Nothing repeats without a positive count of a known unit. */
  predicate RepeatsNever(cfg: Config) {
    match cfg.repeat
    case None => true
    case Some(Repeat(every, unit)) => every <= 0 || unit.None?
  }

  lemma NeverIsNoInterval(cfg: Config)
    ensures RepeatsNever(cfg) <==> Interval(cfg).None?
  {
  }

  /** The least of the times base + k * ns at or after now, for k at least `least`. */
  ghost predicate FirstFrom(base: int, ns: int, now: int, least: nat, at: int) {
    exists k: nat :: k >= least && at == base + k * ns && at >= now && (k > least ==> at - ns < now)
  }

  lemma FirstDueIsFirst(base: int, ns: int, now: int)
    requires ns > 0
    ensures FirstFrom(base, ns, now, 0, FirstDue(base, now, ns))
  {
    FirstDueBounds(base, now, ns);
    assert FirstDue(base, now, ns) == base + StepsTo(base, now, ns) * ns;
  }

  lemma FirstAfterOne(base: int, ns: int, now: int, at: int)
    requires FirstFrom(base + ns, ns, now, 0, at)
    ensures FirstFrom(base, ns, now, 1, at)
  {
    var k: nat :| at == base + ns + k * ns && at >= now && (k > 0 ==> at - ns < now);
    assert (k + 1) * ns == k * ns + ns;
    assert at == base + (k + 1) * ns;
  }

  /**
   A firing stores the first time after the one it was due at that is a whole number of
   intervals later and not past yet, when that is representable.
   */
  lemma FiringStoresTheNextTime(s: Schedule, start: int, ns: int, due: int, now: int, max: int)
    requires RepeatsEvery(s.config, start, ns) && start <= due + ns && due <= max
    requires s.enabled && s.nextRun == Some(due) && due <= now
    ensures IsDue(s, now) && !Panics(s.config, s.nextRun, now)
    ensures
      var r := Fired(s, now, max);
      && r.config == s.config && r.lastRun == Some(now) && r.enabled == r.nextRun.Some?
      && (r.nextRun.Some? ==> FirstFrom(due, ns, now, 1, r.nextRun.value) && r.nextRun.value <= max)
      && (r.nextRun.None? ==> forall k: nat :: k >= 1 && due + k * ns >= now ==> due + k * ns > max)
  {
    RepeatIsInterval(s.config, start, ns);
    FirstDueIsFirst(due + ns, ns, now);
    FirstAfterOne(due, ns, now, FirstDue(due + ns, now, ns));
    forall k: nat | k >= 1 && due + k * ns >= now && due + k * ns <= max
      ensures due + ns <= max && FirstDue(due + ns, now, ns) <= max
    {
      assert (k - 1) * ns == k * ns - ns;
      MulMonotone(0, k - 1, ns);
      FirstDueIsLeast(due + ns, now, ns, k - 1);
    }
  }

  /** With the start more than an interval ahead, it stores the start, or its first repetition that is not past. */
  lemma FiringBeforeTheStart(s: Schedule, start: int, ns: int, due: int, now: int, max: int)
    requires RepeatsEvery(s.config, start, ns) && due + ns < start <= max
    requires s.enabled && s.nextRun == Some(due) && due <= now
    ensures IsDue(s, now) && !Panics(s.config, s.nextRun, now)
    ensures
      var r := Fired(s, now, max);
      r.lastRun == Some(now) && (r.nextRun.Some? ==> FirstFrom(start, ns, now, 0, r.nextRun.value))
  {
    RepeatIsInterval(s.config, start, ns);
    FirstDueIsFirst(start, ns, now);
  }

  /** A save after a firing counts the intervals from the last run it recorded, and keeps that. */
  lemma SaveAfterRun(s: Schedule, cfg: Config, start: int, ns: int, last: int, now: int, max: int)
    requires RepeatsEvery(cfg, start, ns) && start <= last + ns && s.lastRun == Some(last)
    ensures !SavePanics(Some(s), Some(cfg), now)
    ensures
      var r := Synced(Some(s), Some(cfg), now, max);
      && r.Some? && r.value.lastRun == Some(last)
      && if r.value.enabled then
           r.value.config == cfg && r.value.nextRun.Some? && FirstFrom(last, ns, now, 1, r.value.nextRun.value)
         else r.value.config == s.config && r.value.nextRun.None?
  {
    RepeatIsInterval(cfg, start, ns);
    FirstDueIsFirst(last + ns, ns, now);
    FirstAfterOne(last, ns, now, FirstDue(last + ns, now, ns));
  }

  /** Made exactly when due, it stores the time one interval later. */
  lemma FiringOnTime(s: Schedule, start: int, ns: int, due: int, max: int)
    requires RepeatsEvery(s.config, start, ns) && start <= due + ns && due + ns <= max
    requires s.enabled && s.nextRun == Some(due)
    ensures IsDue(s, due) && !Panics(s.config, s.nextRun, due)
    ensures Fired(s, due, max) == Schedule(s.config, Some(due + ns), Some(due), true)
  {
    RepeatIsInterval(s.config, start, ns);
    assert StepsTo(due + ns, due, ns) * ns == 0;
  }

  /** Without a repeat a firing is the last one. */
  lemma FiringWithoutRepeat(s: Schedule, now: int, max: int)
    requires RepeatsNever(s.config) && s.enabled && s.nextRun.Some? && s.nextRun.value <= now
    ensures IsDue(s, now) && !Panics(s.config, s.nextRun, now)
    ensures Fired(s, now, max) == Schedule(s.config, None, Some(now), false)
  {
    NeverIsNoInterval(s.config);
  }

  /** The first save of a schedule stores its start, or the first repetition of it that is not past. */
  lemma FirstSave(cfg: Config, start: int, ns: int, now: int, max: int)
    requires cfg.start == Some(start) && start <= max
    ensures start >= now || RepeatsNever(cfg) ==>
              !SavePanics(None, Some(cfg), now) && Synced(None, Some(cfg), now, max) == Some(Schedule(cfg, Some(start), None, true))
    ensures RepeatsEvery(cfg, start, ns) ==>
              && !SavePanics(None, Some(cfg), now)
              && var r := Synced(None, Some(cfg), now, max);
                 if r.Some? then
                   r.value.config == cfg && r.value.lastRun.None? && r.value.enabled
                   && r.value.nextRun.Some? && FirstFrom(start, ns, now, 0, r.value.nextRun.value)
                 else forall k: nat :: start + k * ns >= now ==> start + k * ns > max
  {
    NeverIsNoInterval(cfg);
    if start >= now && Interval(cfg).Some? {
      assert StepsTo(start, now, Interval(cfg).value) * Interval(cfg).value == 0;
    }
    if RepeatsEvery(cfg, start, ns) {
      RepeatIsInterval(cfg, start, ns);
      FirstDueIsFirst(start, ns, now);
      forall k: nat | start + k * ns >= now && start + k * ns <= max
        ensures FirstDue(start, now, ns) <= max
      {
        FirstDueIsLeast(start, now, ns, k);
      }
    }
  }

  /** The first step saves this configuration no later than its start; the next n fire exactly when due. */
  ghost predicate FiresOnTime(h: History, cfg: Config, start: int, n: nat) {
    && n < |h.ops| && |h.ops| == |h.clock| < |h.rows|
    && h.ops[0] == Save(Some(cfg)) && h.clock[0] <= start
    && forall m :: 1 <= m <= n ==> h.ops[m].Fire? && h.rows[m].Some? && h.rows[m].value.nextRun == Some(h.clock[m])
  }

  /** Then the n-th due time is the start plus n intervals. */
  lemma {:induction false} OnTimeSeries(h: History, max: int, cfg: Config, start: int, ns: int, n: nat)
    requires Valid(h, max) && RepeatsEvery(cfg, start, ns) && FiresOnTime(h, cfg, start, n) && start + n * ns <= max
    ensures h.rows[n + 1] == Some(Schedule(cfg, Some(start + n * ns), if n == 0 then None else Some(start + (n - 1) * ns), true))
  {
    RepeatIsInterval(cfg, start, ns);
    if n == 0 {
      FirstSave(cfg, start, ns, h.clock[0], max);
    } else {
      assert (n - 1) * ns == n * ns - ns;
      MulMonotone(0, n - 1, ns);
      OnTimeSeries(h, max, cfg, start, ns, n - 1);
      FiringOnTime(h.rows[n].value, start, ns, start + (n - 1) * ns, max);
    }
  }

  /** And there is such a history for every n. */
  lemma {:induction false} OnTimeExists(max: int, cfg: Config, start: int, ns: int, n: nat) returns (h: History)
    requires RepeatsEvery(cfg, start, ns) && start + n * ns <= max
    ensures Valid(h, max) && FiresOnTime(h, cfg, start, n) && |h.ops| == n + 1
    ensures forall m :: 1 <= m <= n ==> h.clock[m] == start + (m - 1) * ns
  {
    RepeatIsInterval(cfg, start, ns);
    if n == 0 {
      FirstSave(cfg, start, ns, start, max);
      h := History([None, Synced(None, Some(cfg), start, max)], [start], [Save(Some(cfg))]);
    } else {
      assert (n - 1) * ns == n * ns - ns;
      MulMonotone(0, n - 1, ns);
      var g := OnTimeExists(max, cfg, start, ns, n - 1);
      OnTimeSeries(g, max, cfg, start, ns, n - 1);
      var due := start + (n - 1) * ns;
      FiringOnTime(g.rows[n].value, start, ns, due, max);
      h := Extended(g, Fire(true), due, max);
      ClockReaches(g, cfg, start, ns, n - 1);
      ExtendedIsValid(g, Fire(true), due, max);
    }
  }

  /** One more step. */
  function Extended(h: History, op: Op, now: int, max: int): History
    requires h.rows != [] && Enabled(h.rows[|h.rows| - 1], op, now)
  {
    History(h.rows + [Apply(h.rows[|h.rows| - 1], op, now, max)], h.clock + [now], h.ops + [op])
  }

  lemma ExtendedIsValid(h: History, op: Op, now: int, max: int)
    requires Valid(h, max) && Enabled(h.rows[|h.rows| - 1], op, now)
    requires forall i :: 0 <= i < |h.clock| ==> h.clock[i] <= now
    ensures Valid(Extended(h, op, now, max), max)
  {
  }

  lemma ClockReaches(h: History, cfg: Config, start: int, ns: int, n: nat)
    requires FiresOnTime(h, cfg, start, n) && |h.ops| == n + 1 && ns > 0
    requires forall m :: 1 <= m <= n ==> h.clock[m] == start + (m - 1) * ns
    ensures forall i :: 0 <= i < |h.clock| ==> h.clock[i] <= start + n * ns
  {
    forall i | 0 <= i < |h.clock|
      ensures h.clock[i] <= start + n * ns
    {
      MulMonotone(0, n, ns);
      if i > 0 { MulMonotone(i - 1, n, ns); }
    }
  }

  // ---- How firings follow each other ----

  lemma NextRunAfterLast(cfg: Config, last: int, now: int, max: int)
    ensures
      var next := NextRun(cfg, Some(last), now, max);
      next.Some? ==> Interval(cfg).Some? && next.value >= last + Interval(cfg).value && next.value >= now
  {
  }

  /** The configuration does not repeat more often than every d. */
  predicate NoShorter(cfg: Config, d: int) {
    Interval(cfg).Some? ==> Interval(cfg).value >= d
  }

  /** No configuration saved from step i up to step j repeats more often than every d. */
  ghost predicate SavesNoShorter(h: History, i: int, j: int, d: int) {
    forall m :: 0 <= i <= m < j <= |h.ops| && h.ops[m].Save? && h.ops[m].config.Some? ==> NoShorter(h.ops[m].config.value, d)
  }

  /**
   After a firing at `at` that was due at `due`: it is recorded, and whatever comes next is
   due d later, and no earlier than the firing.
   */
  predicate AfterFiring(row: Option<Schedule>, due: int, at: int, d: int) {
    && row.Some? && NoShorter(row.value.config, d)
    && row.value.lastRun.Some? && row.value.lastRun.value >= at >= due
    && (row.value.nextRun.Some? ==> row.value.nextRun.value >= due + d && row.value.nextRun.value >= at)
  }

  lemma StepKeepsAfterFiring(row: Option<Schedule>, op: Op, now: int, max: int, due: int, at: int, d: int)
    requires Enabled(row, op, now) && AfterFiring(row, due, at, d) && d >= 0 && at <= now
    requires op.Save? && op.config.Some? ==> NoShorter(op.config.value, d)
    ensures AfterFiring(Apply(row, op, now, max), due, at, d)
  {
    match op
    case Fire(_) => NextRunAfterLast(row.value.config, row.value.nextRun.value, now, max);
    case Save(Some(cfg)) => NextRunAfterLast(cfg, row.value.lastRun.value, now, max);
    case _ =>
  }

  lemma FiringStartsIt(s: Schedule, now: int, max: int, d: int)
    requires IsDue(s, now) && NoShorter(s.config, d)
    ensures AfterFiring(Some(Fired(s, now, max)), s.nextRun.value, now, d)
  {
    NextRunAfterLast(s.config, s.nextRun.value, now, max);
  }

  lemma {:induction false} StaysAfterFiring(h: History, max: int, due: int, at: int, d: int, i: nat, j: nat)
    requires Valid(h, max) && d >= 0 && i <= j < |h.rows| && SavesNoShorter(h, i, j, d)
    requires AfterFiring(h.rows[i], due, at, d)
    requires i < |h.ops| ==> at <= h.clock[i]
    ensures AfterFiring(h.rows[j], due, at, d)
    decreases j - i
  {
    if i < j {
      StaysAfterFiring(h, max, due, at, d, i, j - 1);
      assert h.clock[i] <= h.clock[j - 1];
      StepKeepsAfterFiring(h.rows[j - 1], h.ops[j - 1], h.clock[j - 1], max, due, at, d);
    }
  }

  /**
   Firings are spaced: over any firings, failed firings, saves and disables, when no
   configuration in force since a firing repeats more often than every d, each later one is
   due at least d after it. Missed times are skipped: it is due no earlier than the firing was made.
   */
  lemma DueTimesApart(h: History, max: int, d: int, i: nat, j: nat)
    requires Valid(h, max) && i < j < |h.ops| && h.ops[i].Fire? && IsAttempt(h.ops[j])
    requires d >= 0 && NoShorter(h.rows[i].value.config, d) && SavesNoShorter(h, i, j, d)
    ensures h.rows[j].value.nextRun.value >= h.rows[i].value.nextRun.value + d
    ensures h.rows[j].value.nextRun.value >= h.clock[i]
  {
    FiringStartsIt(h.rows[i].value, h.clock[i], max, d);
    StaysAfterFiring(h, max, h.rows[i].value.nextRun.value, h.clock[i], d, i + 1, j);
  }

  /** Whatever is saved in between, a firing is due at least a minute after each earlier one. */
  lemma DueTimesIncrease(h: History, max: int, i: nat, j: nat)
    requires Valid(h, max) && i < j < |h.ops| && h.ops[i].Fire? && IsAttempt(h.ops[j])
    ensures h.rows[j].value.nextRun.value >= h.rows[i].value.nextRun.value + MINUTE
  {
    DueTimesApart(h, max, MINUTE, i, j);
  }

  /**
   A failed firing leaves the schedule due: until a firing completes, or the schedule is saved
   or disabled, every further attempt is for the same due time.
   */
  lemma {:induction false} FailedFiringStaysDue(h: History, max: int, i: nat, j: nat)
    requires Valid(h, max) && i < j < |h.rows| && h.ops[i].FailedFire?
    requires forall m :: i < m < j ==> h.ops[m].FailedFire?
    ensures h.rows[j] == h.rows[i] && forall now :: now >= h.clock[i] ==> IsDue(h.rows[j].value, now)
    decreases j - i
  {
    if i + 1 < j {
      FailedFiringStaysDue(h, max, i, j - 1);
    }
  }

  /** Two attempts in a row are for the same due time if and only if the first one failed. */
  lemma RefiresExactlyAfterAFailure(h: History, max: int, i: nat)
    requires Valid(h, max) && i + 1 < |h.ops| && IsAttempt(h.ops[i]) && IsAttempt(h.ops[i + 1])
    ensures h.rows[i + 1].value.nextRun == h.rows[i].value.nextRun <==> h.ops[i].FailedFire?
  {
    if h.ops[i].Fire? {
      DueTimesIncrease(h, max, i, i + 1);
    } else {
      FailedFiringStaysDue(h, max, i, i + 1);
    }
  }

  /** Step `i` creates a run for this due time. */
  predicate Creates(h: History, i: int, due: int) {
    && 0 <= i < |h.ops| < |h.rows|
    && IsAttempt(h.ops[i]) && h.ops[i].created
    && h.rows[i].Some? && h.rows[i].value.nextRun == Some(due)
  }

  /** The runs created for a due time by the first n steps. */
  function RunsFor(h: History, due: int, n: nat): nat {
    if n == 0 then 0 else RunsFor(h, due, n - 1) + (if Creates(h, n - 1, due) then 1 else 0)
  }

  /** A firing created a run and then failed, and a later one created another for the same due time. */
  ghost predicate FailedAfterCreating(h: History, due: int, n: nat) {
    exists i, j :: 0 <= i < j < n && Creates(h, i, due) && Creates(h, j, due) && h.ops[i].FailedFire?
  }

  lemma {:induction false} RunsForGrows(h: History, due: int, m: nat, n: nat)
    requires m <= n
    ensures RunsFor(h, due, m) <= RunsFor(h, due, n)
    decreases n - m
  {
    if m < n {
      RunsForGrows(h, due, m, n - 1);
    }
  }

  lemma {:induction false} LatestCreation(h: History, due: int, n: nat) returns (i: nat)
    requires RunsFor(h, due, n) > 0
    ensures i < n && Creates(h, i, due) && RunsFor(h, due, i) == RunsFor(h, due, n) - 1
  {
    if Creates(h, n - 1, due) {
      i := n - 1;
    } else {
      i := LatestCreation(h, due, n - 1);
    }
  }

  /** More than one run is created for a due time if and only if a firing failed after it had created one. */
  lemma TwoRunsForOneDueTime(h: History, max: int, due: int, n: nat)
    requires Valid(h, max) && n <= |h.ops|
    ensures RunsFor(h, due, n) > 1 <==> FailedAfterCreating(h, due, n)
  {
    if RunsFor(h, due, n) > 1 {
      var j := LatestCreation(h, due, n);
      var i := LatestCreation(h, due, j);
      if h.ops[i].Fire? {
        DueTimesIncrease(h, max, i, j);
      }
      assert Creates(h, i, due) && Creates(h, j, due) && h.ops[i].FailedFire?;
    }
    if FailedAfterCreating(h, due, n) {
      var i, j :| 0 <= i < j < n && Creates(h, i, due) && Creates(h, j, due) && h.ops[i].FailedFire?;
      RunsForGrows(h, due, i + 1, j);
      RunsForGrows(h, due, j + 1, n);
    }
  }

  /** A one-shot schedule saved at 0, whose first firing created a run and failed, and whose second completed. */
  function FailsOnce(max: int): History {
    var cfg := Config(Some(0), None);
    var due := Schedule(cfg, Some(0), None, true);
    History([None, Some(due), Some(due), Some(Fired(due, 1, max))], [0, 1, 1],
            [Save(Some(cfg)), FailedFire(true), Fire(true)])
  }

  /** It creates two runs for its one due time. */
  lemma OneDueTimeFiredTwice(max: int, h: History)
    requires h == FailsOnce(max)
    ensures Valid(h, max) && RunsFor(h, 0, 3) == 2
  {
    assert h.rows[1] == Apply(h.rows[0], h.ops[0], h.clock[0], max);
    assert h.rows[2] == Apply(h.rows[1], h.ops[1], h.clock[1], max);
    assert h.rows[3] == Apply(h.rows[2], h.ops[2], h.clock[2], max);
    assert Creates(h, 1, 0) && Creates(h, 2, 0) && !Creates(h, 0, 0);
    assert RunsFor(h, 0, 1) == 0 && RunsFor(h, 0, 2) == 1;
  }

  /** Fired, and no longer due at any time. */
  predicate Spent(row: Option<Schedule>) {
    row.Some? && row.value.lastRun.Some? && !row.value.enabled && row.value.nextRun.None?
  }

  lemma StaysSpent(row: Option<Schedule>, op: Op, now: int, max: int)
    requires Spent(row) && Enabled(row, op, now)
    requires op.Save? && op.config.Some? ==> Interval(op.config.value).None?
    ensures !IsAttempt(op) && Spent(Apply(row, op, now, max))
  {
  }

  /**
   A schedule without a repeat is disabled by its first completed firing and not fired again,
   not even after further saves, until a configuration with a repeat is saved.
   */
  lemma {:induction false} OneShotFiresOnce(h: History, max: int, i: nat, j: nat)
    requires Valid(h, max) && i < j < |h.rows| && h.ops[i].Fire?
    requires Interval(h.rows[i].value.config).None?
    requires forall m :: i < m < j && h.ops[m].Save? && h.ops[m].config.Some? ==> Interval(h.ops[m].config.value).None?
    ensures Spent(h.rows[j])
    ensures j < |h.ops| ==> !IsAttempt(h.ops[j])
    decreases j - i
  {
    if j > i + 1 {
      OneShotFiresOnce(h, max, i, j - 1);
      StaysSpent(h.rows[j - 1], h.ops[j - 1], h.clock[j - 1], max);
    }
  }

  /**
   The next run stored by a firing is a whole interval after the last run it records if and
   only if it fired exactly when due, or the start lies a whole interval ahead: the recorded
   last run is the time of firing, while the next run is computed from the time it was due.
   */
  lemma GapAfterFiring(s: Schedule, now: int, max: int)
    requires IsDue(s, now) && Interval(s.config).Some? && s.config.start.Some?
    requires Fired(s, now, max).nextRun.Some?
    ensures
      var r, d := Fired(s, now, max), Interval(s.config).value;
      r.nextRun.value >= r.lastRun.value + d
      <==> s.nextRun.value == now || s.config.start.value >= now + d
  {
  }

  /** A minutely schedule due at 0 and fired half a minute late runs again half a minute later. */
  lemma GapCanBeShort()
    ensures
      var cfg := Config(Some(0), Some(Repeat(1, Some(Minutes))));
      var r := Fired(Schedule(cfg, Some(0), None, true), 30 * SECOND, 1_000 * SECOND);
      r.lastRun == Some(30 * SECOND) && r.nextRun == Some(60 * SECOND) && Interval(cfg) == Some(60 * SECOND)
  {
  }

  /** After a save, on the other hand, the next run is a whole interval after the recorded last run. */
  lemma GapAfterSave(s: Schedule, cfg: Config, now: int, max: int)
    requires s.lastRun.Some?
    ensures
      var r := Synced(Some(s), Some(cfg), now, max).value;
      r.nextRun.Some? ==> Interval(cfg).Some? && r.nextRun.value >= r.lastRun.value + Interval(cfg).value
  {
  }
}
