/** packages/durable/queue.py and packages/shared/enqueue.py: the tasks table under its guarded
    statements. Times are seconds on the database clock. */
module TaskQueue {
  import opened Prelude
  import opened Models

  type TaskId = nat
  type Owner = string

  datatype TaskStatus = Pending | Leased | Succeeded | Failed | Cancelled | Dead

  /** The statuses no statement below leaves. TASK_TERMINAL of the source omits `failed`. */
  const SETTLED: set<TaskStatus> :=
    {TaskStatus.Succeeded, TaskStatus.Failed, TaskStatus.Cancelled, TaskStatus.Dead}

  /** tasks.idempotency_key. The launch writes "enqueue:" and the job id, which is injective in the id. */
  datatype TaskKey = EnqueueKey(job: JobId) | OtherKey(text: string)

  datatype Task = Task(
    queue: string,
    taskType: string,
    payload: JobId,
    key: Option<TaskKey>,
    status: TaskStatus,
    runAfter: real,
    leaseUntil: Option<real>,
    leaseOwner: Option<Owner>,
    attempt: nat,
    lastError: Option<string>,
    parent: Option<nat>,
    createdAt: real)

  // ---- RetryPolicy ----

  function Pow(b: real, n: nat): real {
    if n == 0 then 1.0 else b * Pow(b, n - 1)
  }

  /** A uniform draw over [0, hi], given the draw over [0, 1]. */
  function Uniform(hi: real, draw: real): real {
    draw * hi
  }

  /** Exponential backoff with full jitter; `draw` is the uniform draw from [0, 1]. */
  datatype RetryPolicy = RetryPolicy(
    maxAttempts: int, initialSeconds: real, multiplier: real, maxSeconds: real, jitter: bool)
  {
    function Capped(attempt: int): real {
      if attempt < 1 then 0.0
      else
        var raw := initialSeconds * Pow(multiplier, attempt - 1);
        if raw <= maxSeconds then raw else maxSeconds
    }

    function DelayFor(attempt: int, draw: real): real {
      if attempt < 1 then 0.0 else if !jitter then Capped(attempt) else Uniform(Capped(attempt), draw)
    }

    predicate Exhausted(attempt: int) {
      attempt >= maxAttempts
    }
  }

  lemma {:induction false} PowNonNegative(b: real, n: nat)
    requires b >= 0.0
    ensures Pow(b, n) >= 0.0
  {
    if n > 0 {
      PowNonNegative(b, n - 1);
      ProductInRange(b, Pow(b, n - 1));
    }
  }

  lemma ProductInRange(a: real, b: real)
    requires a >= 0.0 && b >= 0.0
    ensures 0.0 <= a * b
    ensures a <= 1.0 ==> a * b <= b
  {
    if a <= 1.0 {
      assert (1.0 - a) * b >= 0.0;
    }
  }

  lemma CappedInRange(p: RetryPolicy, attempt: int)
    requires p.initialSeconds >= 0.0 && p.multiplier >= 0.0 && p.maxSeconds >= 0.0
    ensures 0.0 <= p.Capped(attempt) <= p.maxSeconds
  {
    if attempt >= 1 {
      PowNonNegative(p.multiplier, attempt - 1);
      ProductInRange(p.initialSeconds, Pow(p.multiplier, attempt - 1));
    }
  }

  lemma UniformInRange(hi: real, draw: real)
    requires 0.0 <= draw <= 1.0 && 0.0 <= hi
    ensures 0.0 <= Uniform(hi, draw) <= hi
  {
    ProductInRange(draw, hi);
  }

  /** A delay is never negative and never above the cap, whatever the draw. */
  lemma DelayInRange(p: RetryPolicy, attempt: int, draw: real)
    requires p.initialSeconds >= 0.0 && p.multiplier >= 0.0 && p.maxSeconds >= 0.0
    requires 0.0 <= draw <= 1.0
    ensures 0.0 <= p.DelayFor(attempt, draw) <= p.maxSeconds
  {
    CappedInRange(p, attempt);
    UniformInRange(p.Capped(attempt), draw);
  }

  lemma ProductGrows(a: real, b: real, c: real)
    requires a >= 0.0 && b <= c
    ensures a * b <= a * c
  {
    ProductInRange(a, c - b);
    assert a * c == a * b + a * (c - b);
  }

  /** From one attempt to the next the bound is multiplied, until the cap cuts it off. */
  lemma BackoffMultiplies(p: RetryPolicy, attempt: int)
    requires p.initialSeconds >= 0.0 && p.multiplier >= 1.0 && p.maxSeconds >= 0.0 && attempt >= 1
    ensures p.Capped(1) == if p.initialSeconds <= p.maxSeconds then p.initialSeconds else p.maxSeconds
    ensures p.Capped(attempt + 1) == if p.multiplier * p.Capped(attempt) <= p.maxSeconds
                                     then p.multiplier * p.Capped(attempt) else p.maxSeconds
  {
    var raw := p.initialSeconds * Pow(p.multiplier, attempt - 1);
    CappedIs(p, attempt, raw);
    NextRaw(p.initialSeconds, p.multiplier, attempt);
    CappedIs(p, attempt + 1, p.multiplier * raw);
    StaysCapped(p.multiplier, raw, p.maxSeconds);
  }

  /** Without jitter the delay is the bound; with full jitter it goes through all of 0 to the bound, evenly,
      as the draw goes from 0 to 1; before the first attempt there is none. */
  lemma JitterIsEven(p: RetryPolicy, attempt: int, draw: real, other: real)
    ensures attempt < 1 ==> p.DelayFor(attempt, draw) == 0.0
    ensures attempt >= 1 && !p.jitter ==> p.DelayFor(attempt, draw) == p.Capped(attempt)
    ensures attempt >= 1 && p.jitter ==>
              && p.DelayFor(attempt, 0.0) == 0.0 && p.DelayFor(attempt, 1.0) == p.Capped(attempt)
              && p.DelayFor(attempt, draw) - p.DelayFor(attempt, other) == (draw - other) * p.Capped(attempt)
  {
  }

  lemma NextRaw(initial: real, b: real, n: int)
    requires n >= 1
    ensures initial * Pow(b, n) == b * (initial * Pow(b, n - 1))
  {
    var p := Pow(b, n - 1);
    assert Pow(b, n) == b * p;
    assert initial * (b * p) == b * (initial * p);
  }

  lemma StaysCapped(b: real, raw: real, cap: real)
    requires b >= 1.0 && cap >= 0.0
    ensures raw > cap ==> b * raw > cap && b * cap >= cap
  {
    if raw > cap {
      ProductGrows(raw, 1.0, b);
      ProductGrows(cap, 1.0, b);
      assert raw * b == b * raw && cap * b == b * cap;
    }
  }

  /** The backoff bound never shrinks from one attempt to the next, and without jitter it is the delay. */
  lemma BackoffGrows(p: RetryPolicy, attempt: int, draw: real)
    requires p.initialSeconds >= 0.0 && p.multiplier >= 1.0 && p.maxSeconds >= 0.0
    ensures p.Capped(attempt) <= p.Capped(attempt + 1)
    ensures !p.jitter ==> p.DelayFor(attempt, draw) == p.Capped(attempt)
    ensures p.Capped(1) == if p.initialSeconds <= p.maxSeconds then p.initialSeconds else p.maxSeconds
  {
    CappedInRange(p, attempt + 1);
    if attempt >= 1 {
      PowGrows(p.multiplier, attempt - 1);
      ProductGrows(p.initialSeconds, Pow(p.multiplier, attempt - 1), Pow(p.multiplier, attempt));
      CappedIs(p, attempt, p.initialSeconds * Pow(p.multiplier, attempt - 1));
      CappedIs(p, attempt + 1, p.initialSeconds * Pow(p.multiplier, attempt));
    }
  }

  lemma PowGrows(b: real, n: nat)
    requires b >= 1.0
    ensures Pow(b, n) <= Pow(b, n + 1)
  {
    PowNonNegative(b, n);
    ProductGrows(Pow(b, n), 1.0, b);
  }

  lemma CappedIs(p: RetryPolicy, attempt: int, raw: real)
    requires attempt >= 1 && raw == p.initialSeconds * Pow(p.multiplier, attempt - 1)
    ensures p.Capped(attempt) == if raw <= p.maxSeconds then raw else p.maxSeconds
  {
  }

  // ---- one row under one statement ----

  predicate Due(r: Task, queue: string, now: real) {
    r.queue == queue && r.status.Pending? && r.runAfter <= now
  }

  function LeaseRow(r: Task, owner: Owner, until: real): Task {
    r.(status := TaskStatus.Leased, leaseOwner := Some(owner), leaseUntil := Some(until), attempt := r.attempt + 1)
  }

  /** The guard shared by HEARTBEAT, COMPLETE, RETRY_LATER and KILL. */
  predicate Holds(r: Task, owner: Owner) {
    r.status.Leased? && r.leaseOwner == Some(owner)
  }

  predicate Expired(r: Task, now: real) {
    r.status.Leased? && r.leaseUntil.Some? && r.leaseUntil.value < now
  }

  function ReleaseRow(r: Task, status: TaskStatus): Task {
    r.(status := status, leaseOwner := None, leaseUntil := None)
  }

  function HeartbeatRow(r: Task, owner: Owner, until: real): Task {
    if Holds(r, owner) then r.(leaseUntil := Some(until)) else r
  }

  function ReapRow(r: Task, now: real): Task {
    if Expired(r, now) then
      ReleaseRow(r, TaskStatus.Pending).(
        lastError := if r.lastError.Some? then r.lastError else Some("lease expired; worker presumed dead"))
    else r
  }

  function CompleteRow(r: Task, owner: Owner): Task {
    if Holds(r, owner) then ReleaseRow(r, TaskStatus.Succeeded) else r
  }

  function RetryRow(r: Task, owner: Owner, dueAt: real, error: string): Task {
    if Holds(r, owner) then ReleaseRow(r, TaskStatus.Pending).(runAfter := dueAt, lastError := Some(error)) else r
  }

  function KillRow(r: Task, owner: Owner, status: TaskStatus, error: string): Task {
    if Holds(r, owner) then ReleaseRow(r, status).(lastError := Some(error)) else r
  }

  function CancelChildRow(r: Task, parent: nat): Task {
    if r.parent == Some(parent) && r.status.Pending? then ReleaseRow(r, TaskStatus.Cancelled) else r
  }

  // ---- the table under one statement ----

  type Rows = map<TaskId, Task>

  function LeaseAll(rows: Rows, claimed: seq<TaskId>, owner: Owner, until: real): Rows {
    map t | t in rows :: if t in claimed then LeaseRow(rows[t], owner, until) else rows[t]
  }

  function ReapAll(rows: Rows, now: real): Rows {
    map t | t in rows :: ReapRow(rows[t], now)
  }

  function CancelChildren(rows: Rows, parent: nat): Rows {
    map t | t in rows :: CancelChildRow(rows[t], parent)
  }

  predicate KeyTaken(rows: Rows, key: Option<TaskKey>) {
    key.Some? && exists t :: t in rows && rows[t].key == key
  }

  function NewTask(queue: string, taskType: string, payload: JobId, key: Option<TaskKey>, runAfter: real,
        parent: Option<nat>, now: real): Task {
    Task(queue, taskType, payload, key, TaskStatus.Pending, runAfter, None, None, 0, None, parent, now)
  }

  /** ENQUEUE: a used idempotency key makes the insert a no-op. */
  function Enqueue(rows: Rows, t: TaskId, r: Task): Rows {
    if KeyTaken(rows, r.key) then rows else rows[t := r]
  }

  /** The unique constraint on tasks.idempotency_key. */
  ghost predicate UniqueKeys(rows: Rows) {
    forall t, u :: t in rows && u in rows && rows[t].key.Some? && rows[t].key == rows[u].key ==> t == u
  }

  // ---- DEQUEUE: which rows ----

  predicate Before(a: Task, b: Task) {
    a.runAfter < b.runAfter || (a.runAfter == b.runAfter && a.createdAt <= b.createdAt)
  }

  ghost function Eligible(rows: Rows, queue: string, now: real, locked: set<TaskId>): set<TaskId> {
    set t | t in rows && Due(rows[t], queue, now) && t !in locked
  }

  /** ORDER BY run_after, created_at FOR UPDATE SKIP LOCKED LIMIT n: distinct eligible rows, as many
      as there are up to the limit, and none passed over for a later one. The order of the rows an
      UPDATE returns is unspecified, so the order of `claimed` says nothing. */
  ghost predicate IsSelection(rows: Rows, queue: string, now: real, locked: set<TaskId>, limit: nat,
        claimed: seq<TaskId>) {
    var eligible := Eligible(rows, queue, now, locked);
    && (forall t :: t in claimed ==> t in eligible)
    && (forall i, j :: 0 <= i < j < |claimed| ==> claimed[i] != claimed[j])
    && (|claimed| == limit || (|claimed| < limit && forall t :: t in eligible ==> t in claimed))
    && (forall t, u :: t in claimed && u in eligible && u !in claimed ==> Before(rows[t], rows[u]))
  }

  method SelectDue(rows: Rows, queue: string, now: real, locked: set<TaskId>, limit: nat) returns (claimed: seq<TaskId>)
    ensures IsSelection(rows, queue, now, locked, limit, claimed)
    ensures forall t :: t in claimed ==>
              t in rows && rows[t].queue == queue && rows[t].status.Pending? && rows[t].runAfter <= now && t !in locked
    ensures |claimed| <= limit && forall i, k :: 0 <= i < k < |claimed| ==> claimed[i] != claimed[k]
    ensures forall u | u in rows && u !in locked && u !in claimed ::
              rows[u].queue == queue && rows[u].status.Pending? && rows[u].runAfter <= now ==>
                && |claimed| == limit
                && forall t :: t in claimed ==>
                     rows[t].runAfter < rows[u].runAfter
                     || (rows[t].runAfter == rows[u].runAfter && rows[t].createdAt <= rows[u].createdAt)
  {
    claimed := [];
    var rest := set t | t in rows && Due(rows[t], queue, now) && t !in locked;
    while rest != {} && |claimed| < limit
      invariant |claimed| <= limit
      invariant forall t :: t in Eligible(rows, queue, now, locked) <==> t in claimed || t in rest
      invariant forall t :: t in claimed ==> t !in rest
      invariant forall i, j :: 0 <= i < j < |claimed| ==> claimed[i] != claimed[j]
      invariant forall t, u :: t in claimed && u in rest ==> Before(rows[t], rows[u])
    {
      var least := Least(rows, rest);
      claimed := claimed + [least];
      rest := rest - {least};
    }
  }

  method Least(rows: Rows, ids: set<TaskId>) returns (least: TaskId)
    requires ids != {} && ids <= rows.Keys
    ensures least in ids && forall t :: t in ids ==> Before(rows[least], rows[t])
  {
    least :| least in ids;
    var rest := ids - {least};
    while rest != {}
      invariant rest <= ids && least in ids
      invariant forall t :: t in ids - rest ==> Before(rows[least], rows[t])
    {
      var t :| t in rest;
      if Before(rows[t], rows[least]) {
        least := t;
      }
      rest := rest - {t};
    }
  }

  /** Any two selections with the same limit take the same number of rows, and what one takes beyond
      the other ties with what it left: the claimed rows are the least ones up to ties. */
  lemma SelectionsAgreeUpToTies(rows: Rows, queue: string, now: real, locked: set<TaskId>, limit: nat, a: seq<TaskId>,
        b: seq<TaskId>)
    requires IsSelection(rows, queue, now, locked, limit, a) && IsSelection(rows, queue, now, locked, limit, b)
    ensures |a| == |b|
    ensures forall t, u :: t in a && t !in b && u in b && u !in a ==>
              rows[t].runAfter == rows[u].runAfter && rows[t].createdAt == rows[u].createdAt
  {
    if |a| < |b| {
      DistinctFits(b, a);
    } else if |b| < |a| {
      DistinctFits(a, b);
    }
  }

  // ---- the table as the statements update it ----

  class TaskTable {
    var rows: Rows

    constructor ()
      ensures rows == map[]
    {
      rows := map[];
    }

    /** DEQUEUE; `locked` are the rows other transactions hold. Returns the claimed rows as updated. */
    method Dequeue(owner: Owner, queue: string, limit: nat, now: real, leaseSeconds: real, locked: set<TaskId>)
      returns (claimed: seq<TaskId>)
      modifies this
      ensures IsSelection(old(rows), queue, now, locked, limit, claimed)
      ensures rows == LeaseAll(old(rows), claimed, owner, now + leaseSeconds)
      ensures forall t :: t in claimed ==>
                t in old(rows) && old(rows)[t].queue == queue && old(rows)[t].status.Pending?
                && old(rows)[t].runAfter <= now && t !in locked
      ensures forall u | u in old(rows) && u !in locked && u !in claimed ::
                old(rows)[u].queue == queue && old(rows)[u].status.Pending? && old(rows)[u].runAfter <= now ==>
                  && |claimed| == limit
                  && forall t :: t in claimed ==>
                       old(rows)[t].runAfter < old(rows)[u].runAfter
                       || (old(rows)[t].runAfter == old(rows)[u].runAfter
                           && old(rows)[t].createdAt <= old(rows)[u].createdAt)
      ensures rows.Keys == old(rows).Keys && forall t :: t in old(rows) ==>
                rows[t] == if t in claimed
                           then old(rows)[t].(status := TaskStatus.Leased, leaseOwner := Some(owner),
                                              leaseUntil := Some(now + leaseSeconds),
                                              attempt := old(rows)[t].attempt + 1)
                           else old(rows)[t]
    {
      claimed := SelectDue(rows, queue, now, locked, limit);
      rows := map t | t in rows ::
        if t in claimed then
          rows[t].(status := TaskStatus.Leased, leaseOwner := Some(owner), leaseUntil := Some(now + leaseSeconds),
                   attempt := rows[t].attempt + 1)
        else rows[t];
    }

    method Heartbeat(t: TaskId, owner: Owner, now: real, leaseSeconds: real) returns (held: bool)
      modifies this
      ensures held <==> t in old(rows) && Holds(old(rows)[t], owner)
      ensures rows == if t in old(rows) then old(rows)[t := HeartbeatRow(old(rows)[t], owner, now + leaseSeconds)]
          else old(rows)
      ensures held <==> t in old(rows) && old(rows)[t].status.Leased? && old(rows)[t].leaseOwner == Some(owner)
      ensures rows == if held then old(rows)[t := old(rows)[t].(leaseUntil := Some(now + leaseSeconds))] else old(rows)
    {
      held := t in rows && rows[t].status.Leased? && rows[t].leaseOwner == Some(owner);
      if held {
        rows := rows[t := rows[t].(leaseUntil := Some(now + leaseSeconds))];
      } else if t in rows {
        assert rows == rows[t := rows[t]];
      }
    }

    method ReapExpired(now: real) returns (reaped: nat)
      modifies this
      ensures rows == ReapAll(old(rows), now)
      ensures reaped == |set t | t in old(rows) && Expired(old(rows)[t], now)|
      ensures rows.Keys == old(rows).Keys && forall t :: t in old(rows) ==>
                var r := old(rows)[t];
                rows[t] == if r.status.Leased? && r.leaseUntil.Some? && r.leaseUntil.value < now
                           then r.(status := TaskStatus.Pending, leaseOwner := None, leaseUntil := None,
                                   lastError := if r.lastError.Some? then r.lastError
                                       else Some("lease expired; worker presumed dead"))
                           else r
    {
      var expired := set t | t in rows && Expired(rows[t], now);
      rows := map t | t in rows ::
        if t in expired then
          rows[t].(status := TaskStatus.Pending, leaseOwner := None, leaseUntil := None,
                   lastError := if rows[t].lastError.Some? then rows[t].lastError
                       else Some("lease expired; worker presumed dead"))
        else rows[t];
      return |expired|;
    }

    method Complete(t: TaskId, owner: Owner)
      modifies this
      ensures rows == if t in old(rows) then old(rows)[t := CompleteRow(old(rows)[t], owner)] else old(rows)
      ensures rows == if t in old(rows) && old(rows)[t].status.Leased? && old(rows)[t].leaseOwner == Some(owner)
                      then old(rows)[t :=
                             old(rows)[t].(status := TaskStatus.Succeeded, leaseOwner := None, leaseUntil := None)]
                      else old(rows)
    {
      if t in rows && Holds(rows[t], owner) {
        rows := rows[t := rows[t].(status := TaskStatus.Succeeded, leaseOwner := None, leaseUntil := None)];
      } else if t in rows {
        assert rows == rows[t := rows[t]];
      }
    }

    method RetryLater(t: TaskId, owner: Owner, now: real, delay: real, error: string)
      modifies this
      ensures rows == if t in old(rows) then old(rows)[t := RetryRow(old(rows)[t], owner, now + delay, error)]
          else old(rows)
      ensures rows == if t in old(rows) && old(rows)[t].status.Leased? && old(rows)[t].leaseOwner == Some(owner)
                      then old(rows)[t :=
                             old(rows)[t].(status := TaskStatus.Pending, leaseOwner := None, leaseUntil := None,
                                           runAfter := now + delay, lastError := Some(error))]
                      else old(rows)
    {
      if t in rows && Holds(rows[t], owner) {
        rows := rows[t := rows[t].(status := TaskStatus.Pending, leaseOwner := None, leaseUntil := None,
                                   runAfter := now + delay, lastError := Some(error))];
      } else if t in rows {
        assert rows == rows[t := rows[t]];
      }
    }

    method Kill(t: TaskId, owner: Owner, status: TaskStatus, error: string)
      modifies this
      ensures rows == if t in old(rows) then old(rows)[t := KillRow(old(rows)[t], owner, status, error)] else old(rows)
      ensures rows == if t in old(rows) && old(rows)[t].status.Leased? && old(rows)[t].leaseOwner == Some(owner)
                      then old(rows)[t :=
                             old(rows)[t].(status := status, leaseOwner := None, leaseUntil := None,
                                           lastError := Some(error))]
                      else old(rows)
    {
      if t in rows && Holds(rows[t], owner) {
        rows := rows[t := rows[t].(status := status, leaseOwner := None, leaseUntil := None, lastError := Some(error))];
      } else if t in rows {
        assert rows == rows[t := rows[t]];
      }
    }

    method CancelPendingChildren(parent: nat)
      modifies this
      ensures rows == CancelChildren(old(rows), parent)
      ensures rows.Keys == old(rows).Keys && forall t :: t in old(rows) ==>
                rows[t] == if old(rows)[t].parent == Some(parent) && old(rows)[t].status.Pending?
                           then old(rows)[t].(status := TaskStatus.Cancelled, leaseOwner := None, leaseUntil := None)
                           else old(rows)[t]
    {
      rows := map t | t in rows ::
        if rows[t].parent == Some(parent) && rows[t].status.Pending?
        then rows[t].(status := TaskStatus.Cancelled, leaseOwner := None, leaseUntil := None) else rows[t];
    }

    /** enqueue_task; `t` is the fresh id of the row. */
    method EnqueueTask(t: TaskId, queue: string, taskType: string, payload: JobId, key: Option<TaskKey>,
        runAfter: Option<real>, parent: Option<nat>, now: real)
      requires t !in rows
      modifies this
      ensures var due := if runAfter.Some? then runAfter.value else now;
              rows == Enqueue(old(rows), t, NewTask(queue, taskType, payload, key, due, parent, now))
      ensures UniqueKeys(old(rows)) ==> UniqueKeys(rows)
      ensures key.Some? ==> exists u :: u in rows && rows[u].key == key
      ensures rows == if key.Some? && exists u :: u in old(rows) && old(rows)[u].key == key then old(rows)
                      else old(rows)[t :=
                             Task(queue, taskType, payload, key, TaskStatus.Pending,
                                  if runAfter.Some? then runAfter.value else now, None, None, 0, None, parent, now)]
    {
      var due := if runAfter.Some? then runAfter.value else now;
      if key.None? || forall u :: u in rows ==> rows[u].key != key {
        rows := rows[t := Task(queue, taskType, payload, key, TaskStatus.Pending, due, None, None, 0, None,
            parent, now)];
        assert rows[t].key == key;
      }
    }
  }
}
