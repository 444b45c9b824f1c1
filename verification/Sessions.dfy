/**
 Sessions: the in-process cache in front of the session table
 (backend/src/session.rs:135-426, backend/src/main.rs:818-873).
 Each call is one atomic step; a storage call either takes effect or fails without effect.
 */
module Sessions {
  import opened Wrappers
  import opened JsonValues

  type Id = nat

  const HOUR: int := 3_600_000_000

  datatype Session = Session(user: Id, data: Value, expiresAt: int, createdAt: int)

  type Store = map<Id, Session>

  /** The answer without any cache: the row, if it is there and has not expired. */
  function Lookup(table: Store, id: Id, now: int): Option<Session> {
    if id in table && table[id].expiresAt > now then Some(table[id]) else None
  }

  /** The row an upsert leaves; the creation time of an existing row survives. */
  function Stored(table: Store, id: Id, user: Id, data: Value, ttlHours: int, now: int): Session {
    Session(user, data, now + ttlHours * HOUR, if id in table then table[id].createdAt else now)
  }

  // ---- One call ----

  datatype Call =
    | Advance(to: int)
    | Persist(id: Id, user: Id, data: Value, ttlHours: int, ok: bool)
    | Get(id: Id, readOk: bool, deleteOk: bool)
    | Delete(id: Id, ok: bool)
    | Sweep(ok: bool)

  datatype Answer = Found(session: Option<Session>) | Deleted(existed: bool) | Failed | Done

  /** A process: its cache, the table behind it, and the clock. */
  datatype Process = Process(cache: Store, table: Store, now: int)

  predicate Expired(s: Session, now: int) {
    s.expiresAt <= now
  }

  function Step(s: Process, c: Call): (Process, Answer) {
    match c
    case Advance(to) => (s.(now := if s.now <= to then to else s.now), Done)
    case Persist(id, user, data, ttl, ok) =>
      if !ok then (s, Failed)
      else
        var row := Stored(s.table, id, user, data, ttl, s.now);
        (s.(cache := s.cache[id := row], table := s.table[id := row]), Found(Some(row)))
    case Get(id, readOk, deleteOk) =>
      if id in s.cache && !Expired(s.cache[id], s.now) then (s, Found(Some(s.cache[id])))
      else
        var t := s.(cache := s.cache - {id});
        if !readOk then (t, Failed)
        else if id !in s.table then (t, Found(None))
        else if Expired(s.table[id], s.now) then (Removed(t, id, deleteOk), Found(None))
        else (t.(cache := t.cache[id := s.table[id]]), Found(Some(s.table[id])))
    case Delete(id, ok) => (Removed(s, id, ok), if ok then Deleted(id in s.table) else Failed)
    case Sweep(ok) =>
      (s.(cache := map id | id in s.cache && !Expired(s.cache[id], s.now) :: s.cache[id],
          table := if ok then Swept(s.table, s.now) else s.table), Done)
  }

  /** The cached copy goes first; the row goes if storage answers. */
  function Removed(s: Process, id: Id, ok: bool): Process {
    s.(cache := s.cache - {id}, table := if ok then s.table - {id} else s.table)
  }

  function Swept(table: Store, now: int): Store {
    map id | id in table && !(table[id].expiresAt < now) :: table[id]
  }

  class SessionService {
    var cache: Store
    var table: Store
    var now: int

    ghost function View(): Process
      reads this
    {
      Process(cache, table, now)
    }

    constructor (table: Store, now: int)
      ensures View() == Process(map[], table, now)
    {
      this.cache, this.table, this.now := map[], table, now;
    }

    /** `persist_session`, behind creating and updating a session. */
    method PersistSession(id: Id, user: Id, data: Value, ttlHours: int, storageOk: bool) returns (a: Answer)
      modifies this`cache, this`table
      ensures (View(), a) == Step(old(View()), Persist(id, user, data, ttlHours, storageOk))
    {
      var expiresAt := now + ttlHours * HOUR;
      if !storageOk { return Failed; }
      var createdAt := if id in table then table[id].createdAt else now;
      var s := Session(user, data, expiresAt, createdAt);
      table := table[id := s];
      cache := cache[id := s];
      return Found(Some(s));
    }

    method GetSession(id: Id, readOk: bool, deleteOk: bool) returns (a: Answer)
      modifies this`cache, this`table
      ensures (View(), a) == Step(old(View()), Get(id, readOk, deleteOk))
    {
      if id in cache {
        if cache[id].expiresAt > now {
          return Found(Some(cache[id]));
        }
        cache := cache - {id};
      } else {
        assert cache - {id} == cache;
      }
      if !readOk { return Failed; }
      if id !in table { return Found(None); }
      var s := table[id];
      if s.expiresAt <= now {
        var _ := DeleteSession(id, deleteOk);
        assert old(cache) - {id} - {id} == old(cache) - {id};
        return Found(None);
      }
      cache := cache[id := s];
      return Found(Some(s));
    }

    method DeleteSession(id: Id, storageOk: bool) returns (a: Answer)
      modifies this`cache, this`table
      ensures (View(), a) == Step(old(View()), Delete(id, storageOk))
    {
      cache := cache - {id};
      if !storageOk { return Failed; }
      a := Deleted(id in table);
      table := table - {id};
    }

    /** The hourly sweep of both stores. */
    method SweepExpired(storageOk: bool)
      modifies this`cache, this`table
      ensures View() == Step(old(View()), Sweep(storageOk)).0
    {
      cache := map id | id in cache && !(cache[id].expiresAt <= now) :: cache[id];
      if storageOk {
        table := Swept(table, now);
      }
    }
  }

  // ---- The cache is invisible ----

  /** What the cache still answers for is what the table holds. */
  ghost predicate Coherent(s: Process) {
    forall id :: id in s.cache && !Expired(s.cache[id], s.now) ==> id in s.table && s.table[id] == s.cache[id]
  }

  /** The service without a cache: every read goes to the table. */
  datatype Plain = Plain(table: Store, now: int)

  function PlainStep(s: Plain, c: Call): (Plain, Answer) {
    match c
    case Advance(to) => (s.(now := if s.now <= to then to else s.now), Done)
    case Persist(id, user, data, ttl, ok) =>
      if !ok then (s, Failed)
      else
        var row := Stored(s.table, id, user, data, ttl, s.now);
        (s.(table := s.table[id := row]), Found(Some(row)))
    case Get(id, readOk, deleteOk) =>
      var drop := readOk && deleteOk && id in s.table && Expired(s.table[id], s.now);
      (if drop then s.(table := s.table - {id}) else s, Found(Lookup(s.table, id, s.now)))
    case Delete(id, ok) => 
      (if ok then s.(table := s.table - {id}) else s, if ok then Deleted(id in s.table) else Failed)
    case Sweep(ok) => (if ok then s.(table := Swept(s.table, s.now)) else s, Done)
  }

  function Behind(s: Process): Plain {
    Plain(s.table, s.now)
  }

  /** One call: coherence is kept, the table moves as without the cache, and so is the answer unless storage failed. */
  lemma StepRefines(s: Process, c: Call)
    requires Coherent(s)
    ensures Coherent(Step(s, c).0)
    ensures Behind(Step(s, c).0) == PlainStep(Behind(s), c).0
    ensures Step(s, c).1 == PlainStep(Behind(s), c).1 || Step(s, c).1 == Failed
    ensures c.Get? && c.readOk ==> Step(s, c).1 != Failed
  {
  }

  function Answers(s: Process, calls: seq<Call>): seq<Answer>
    decreases |calls|
  {
    if calls == [] then [] else [Step(s, calls[0]).1] + Answers(Step(s, calls[0]).0, calls[1..])
  }

  function PlainAnswers(s: Plain, calls: seq<Call>): seq<Answer>
    decreases |calls|
  {
    if calls == [] then [] else [PlainStep(s, calls[0]).1] + PlainAnswers(PlainStep(s, calls[0]).0, calls[1..])
  }

  /**
   Over any sequence of calls with any storage failures, a process that starts with an empty
   cache answers as a cacheless service does, except where it reports a failure; in
   particular every session it finds is the unexpired row of the table at that moment.
   */
  lemma {:induction false} CacheIsInvisible(s: Process, calls: seq<Call>, i: nat)
    requires Coherent(s) && i < |calls|
    ensures |Answers(s, calls)| == |PlainAnswers(Behind(s), calls)| == |calls|
    ensures Answers(s, calls)[i] == PlainAnswers(Behind(s), calls)[i] || Answers(s, calls)[i] == Failed
    ensures calls[i].Get? && calls[i].readOk ==> Answers(s, calls)[i] != Failed
    decreases |calls|
  {
    StepRefines(s, calls[0]);
    if i > 0 {
      CacheIsInvisible(Step(s, calls[0]).0, calls[1..], i - 1);
    } else if |calls| > 1 {
      CacheIsInvisible(Step(s, calls[0]).0, calls[1..], 0);
    }
  }

  // ---- What a session is for ----

  /** The process after these calls. */
  function After(s: Process, calls: seq<Call>): Process
    decreases |calls|
  {
    if calls == [] then s else After(Step(s, calls[0]).0, calls[1..])
  }

  /** A persist that succeeds stores the session for that many hours, keeping the creation time of an earlier one. */
  lemma PersistStores(s: Process, id: Id, user: Id, data: Value, hours: int)
    ensures
      var (t, a) := Step(s, Persist(id, user, data, hours, true));
      var row := Session(user, data, s.now + hours * 3_600_000_000, if id in s.table then s.table[id].createdAt else s.now);
      && a == Found(Some(row)) && id in t.table && t.table[id] == row && t.now == s.now
      && forall other :: other != id ==> (other in t.table <==> other in s.table) && (other in t.table ==> t.table[other] == s.table[other])
  {
  }

  /** No call stores or deletes this session. */
  predicate LeavesAlone(calls: seq<Call>, id: Id) {
    forall i :: 0 <= i < |calls| ==> !(calls[i].Persist? && calls[i].id == id) && !(calls[i].Delete? && calls[i].id == id)
  }

  /** The row is as it was, or it has expired and is gone. */
  ghost predicate Holds(s: Process, id: Id, row: Session) {
    && Coherent(s)
    && (id in s.table ==> s.table[id] == row)
    && (s.now < row.expiresAt ==> id in s.table)
  }

  lemma StepHolds(s: Process, c: Call, id: Id, row: Session)
    requires Holds(s, id, row) && LeavesAlone([c], id)
    ensures Holds(Step(s, c).0, id, row)
  {
    StepRefines(s, c);
    assert !([c][0].Persist? && [c][0].id == id) && !([c][0].Delete? && [c][0].id == id);
  }

  lemma {:induction false} CallsHold(s: Process, calls: seq<Call>, id: Id, row: Session)
    requires Holds(s, id, row) && LeavesAlone(calls, id)
    ensures Holds(After(s, calls), id, row)
    decreases |calls|
  {
    if calls != [] {
      StepHolds(s, calls[0], id, row);
      CallsHold(Step(s, calls[0]).0, calls[1..], id, row);
    }
  }

  /**
   A stored session is found until it expires and not after, whatever other calls are made,
   wherever they find it, and whether storage answers them or not.
   */
  lemma FoundUntilItExpires(s: Process, calls: seq<Call>, id: Id, row: Session, deleteOk: bool)
    requires Coherent(s) && id in s.table && s.table[id] == row && LeavesAlone(calls, id)
    ensures
      var t := After(s, calls);
      Step(t, Get(id, true, deleteOk)).1 == Found(if t.now < row.expiresAt then Some(row) else None)
  {
    CallsHold(s, calls, id, row);
    StepRefines(After(s, calls), Get(id, true, deleteOk));
  }

  ghost predicate Gone(s: Process, id: Id) {
    Coherent(s) && id !in s.table
  }

  lemma StepStaysGone(s: Process, c: Call, id: Id)
    requires Gone(s, id) && !(c.Persist? && c.id == id)
    ensures Gone(Step(s, c).0, id)
  {
    StepRefines(s, c);
  }

  lemma {:induction false} CallsStayGone(s: Process, calls: seq<Call>, id: Id)
    requires Gone(s, id) && forall i :: 0 <= i < |calls| ==> !(calls[i].Persist? && calls[i].id == id)
    ensures Gone(After(s, calls), id)
    decreases |calls|
  {
    if calls != [] {
      StepStaysGone(s, calls[0], id);
      CallsStayGone(Step(s, calls[0]).0, calls[1..], id);
    }
  }

  /** A deleted session is not found again before it is stored again. */
  lemma DeletedIsNotFound(s: Process, calls: seq<Call>, id: Id, deleteOk: bool)
    requires Coherent(s) && forall i :: 0 <= i < |calls| ==> !(calls[i].Persist? && calls[i].id == id)
    ensures
      var (t, a) := Step(s, Delete(id, true));
      a == Deleted(id in s.table) && Step(After(t, calls), Get(id, true, deleteOk)).1 == Found(None)
  {
    StepRefines(s, Delete(id, true));
    var t := Step(s, Delete(id, true)).0;
    CallsStayGone(t, calls, id);
    StepRefines(After(t, calls), Get(id, true, deleteOk));
  }

  /** A sweep that succeeds leaves no row that expired before it, and drops no other. */
  lemma SweepDropsTheExpired(s: Process, id: Id)
    ensures
      var t := Step(s, Sweep(true)).0;
      && (id in t.table <==> id in s.table && s.table[id].expiresAt >= s.now)
      && (id in t.table ==> t.table[id] == s.table[id])
  {
  }
}
