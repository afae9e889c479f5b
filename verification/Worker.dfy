/** packages/durable/worker.py: what one execution of a claimed task does to the table. */
module Worker {
  import opened Prelude
  import opened Models
  import opened TaskQueue

  /** How a handler call ended: normally, or with one of the exceptions _run_one tells apart. */
  datatype Outcome =
    | Returned
    | RaisedPermanent(error: string)
    | RaisedTransient(error: string)
    | RaisedOther(error: string)

  datatype Config = Config(policy: RetryPolicy, leaseSeconds: real, handlers: set<string>)

  /** The copy of the row a worker works from; later updates of the row do not reach it. */
  datatype Claim = Claim(id: TaskId, taskType: string, payload: JobId, attempt: nat)

  function RetryOrKillRow(c: Config, r: Task, owner: Owner, attempt: nat, error: string, now: real, draw: real): Task {
    if c.policy.Exhausted(attempt) then KillRow(r, owner, TaskStatus.Dead, error)
    else RetryRow(r, owner, now + c.policy.DelayFor(attempt, draw), error)
  }

  /** The last statement of an execution. */
  function FinishRow(c: Config, r: Task, owner: Owner, taskType: string, attempt: nat, outcome: Outcome, now: real,
        draw: real): Task {
    if taskType !in c.handlers then KillRow(r, owner, TaskStatus.Dead, "no handler registered")
    else
      match outcome
      case Returned => CompleteRow(r, owner)
      case RaisedPermanent(e) => KillRow(r, owner, TaskStatus.Failed, e)
      case RaisedTransient(e) => RetryOrKillRow(c, r, owner, attempt, e, now, draw)
      case RaisedOther(e) => RetryOrKillRow(c, r, owner, attempt, "unexpected error: " + e, now, draw)
  }

  /** Does that statement reschedule the task (when its guard holds)? */
  predicate Retries(c: Config, taskType: string, attempt: nat, outcome: Outcome) {
    taskType in c.handlers && (outcome.RaisedTransient? || outcome.RaisedOther?) && !c.policy.Exhausted(attempt)
  }

  /** What a row may look like after the last statement of an execution. */
  ghost predicate Finished(r: Task, r': Task, owner: Owner, retry: bool, outcome: Outcome) {
    && (!Holds(r, owner) ==> r' == r)
    && (Holds(r, owner) ==>
          && r'.leaseOwner == None && r'.leaseUntil == None
          && (if retry then r'.status.Pending? else r'.status.Succeeded? || r'.status.Failed? || r'.status.Dead?)
          && (r'.status.Succeeded? ==> outcome.Returned?)
          && (r'.status.Failed? ==> outcome.RaisedPermanent?))
    && r'.attempt == r.attempt && SameTask(r, r')
  }

  /** The columns no statement after ENQUEUE writes. */
  ghost predicate SameTask(a: Task, b: Task) {
    a.queue == b.queue && a.taskType == b.taskType && a.payload == b.payload && a.key == b.key && a.parent == b.parent
  }

  lemma FinishRowEffect(c: Config, r: Task, owner: Owner, taskType: string, attempt: nat, outcome: Outcome, now: real,
        draw: real)
    ensures Finished(r, FinishRow(c, r, owner, taskType, attempt, outcome, now, draw), owner,
        Retries(c, taskType, attempt, outcome), outcome)
  {
  }

  class DurableWorker {
    const table: TaskTable
    const workerId: Owner
    const queue: string
    const batchSize: nat
    const config: Config
    var inflight: set<Claim>

    constructor (table: TaskTable, workerId: Owner, queue: string, batchSize: nat, config: Config)
      ensures this.table == table && this.workerId == workerId && this.queue == queue && this.batchSize == batchSize
      ensures this.config == config && inflight == {}
    {
      this.table, this.workerId, this.queue, this.batchSize := table, workerId, queue, batchSize;
      this.config := config;
      inflight := {};
    }

    /** One turn of the dispatch loop up to the handler calls: what it claimed is in flight. */
    method DispatchBatch(now: real, locked: set<TaskId>) returns (claimed: seq<TaskId>)
      modifies this, table
      ensures IsSelection(old(table.rows), queue, now, locked, batchSize, claimed)
      ensures table.rows == LeaseAll(old(table.rows), claimed, workerId, now + config.leaseSeconds)
      ensures inflight == old(inflight) + set t | t in claimed && t in old(table.rows) ::
                Claim(t, old(table.rows)[t].taskType, old(table.rows)[t].payload, old(table.rows)[t].attempt + 1)
    {
      claimed := table.Dequeue(workerId, queue, batchSize, now, config.leaseSeconds, locked);
      ghost var before := old(table.rows);
      for n := 0 to |claimed|
        invariant table.rows == LeaseAll(before, claimed, workerId, now + config.leaseSeconds)
        invariant inflight == old(inflight) + set t | t in claimed[..n] && t in before ::
                    Claim(t, before[t].taskType, before[t].payload, before[t].attempt + 1)
      {
        var t := claimed[n];
        assert t in Eligible(before, queue, now, locked);
        assert forall u :: u in claimed[..n + 1] <==> u in claimed[..n] || u == t;
        inflight := inflight + {Claim(t, table.rows[t].taskType, table.rows[t].payload, table.rows[t].attempt)};
      }
      assert claimed[..|claimed|] == claimed;
    }

    /** _run_one after the handler (if any) has ended with this outcome. */
    method RunOne(task: Claim, outcome: Outcome, now: real, draw: real)
      modifies this, table
      ensures table.rows == if task.id in old(table.rows)
                then old(table.rows)[task.id :=
                       FinishRow(config, old(table.rows)[task.id], workerId, task.taskType, task.attempt, outcome,
                           now, draw)]
                else old(table.rows)
      ensures inflight == old(inflight) - {task}
      // only the holder's row changes, and how it changes is decided by outcome and policy
      ensures table.rows.Keys == old(table.rows).Keys
      ensures forall t :: t in old(table.rows) && t != task.id ==> table.rows[t] == old(table.rows)[t]
      ensures task.id in old(table.rows) ==>
                var r, r' := old(table.rows)[task.id], table.rows[task.id];
                if !r.status.Leased? || r.leaseOwner != Some(workerId) then r' == r
                else
                  && r'.leaseOwner == None && r'.leaseUntil == None && r'.attempt == r.attempt && SameTask(r, r')
                  && (task.taskType !in config.handlers ==>
                        r'.status.Dead? && r'.lastError == Some("no handler registered"))
                  && (task.taskType in config.handlers ==>
                        match outcome
                        case Returned => r'.status.Succeeded? && r'.lastError == r.lastError
                        case RaisedPermanent(e) => r'.status.Failed? && r'.lastError == Some(e)
                        case RaisedTransient(e) =>
                          && r'.lastError == Some(e)
                          && if task.attempt >= config.policy.maxAttempts then r'.status.Dead?
                             else r'.status.Pending? &&
                                  r'.runAfter == now + config.policy.DelayFor(task.attempt, draw)
                        case RaisedOther(e) =>
                          && r'.lastError == Some("unexpected error: " + e)
                          && if task.attempt >= config.policy.maxAttempts then r'.status.Dead?
                             else r'.status.Pending? &&
                                  r'.runAfter == now + config.policy.DelayFor(task.attempt, draw))
    {
      if task.taskType !in config.handlers {
        table.Kill(task.id, workerId, TaskStatus.Dead, "no handler registered");
      } else {
        match outcome {
          case Returned => table.Complete(task.id, workerId);
          case RaisedPermanent(e) => table.Kill(task.id, workerId, TaskStatus.Failed, e);
          case RaisedTransient(e) => RetryOrKill(task, e, now, draw);
          case RaisedOther(e) => RetryOrKill(task, "unexpected error: " + e, now, draw);
        }
      }
      inflight := inflight - {task};
    }

    method RetryOrKill(task: Claim, error: string, now: real, draw: real)
      modifies table
      ensures table.rows == if task.id in old(table.rows)
                then old(table.rows)[task.id :=
                       RetryOrKillRow(config, old(table.rows)[task.id], workerId, task.attempt, error, now, draw)]
                else old(table.rows)
      ensures task.id in old(table.rows) && old(table.rows)[task.id].status.Leased?
              && old(table.rows)[task.id].leaseOwner == Some(workerId) ==>
                && table.rows[task.id].lastError == Some(error)
                && (table.rows[task.id].status.Dead? <==> task.attempt >= config.policy.maxAttempts)
                && (task.attempt < config.policy.maxAttempts ==>
                      && table.rows[task.id].status.Pending?
                      && table.rows[task.id].runAfter == now + config.policy.DelayFor(task.attempt, draw))
    {
      if config.policy.Exhausted(task.attempt) {
        table.Kill(task.id, workerId, TaskStatus.Dead, error);
        return;
      }
      table.RetryLater(task.id, workerId, now, config.policy.DelayFor(task.attempt, draw), error);
    }

    method ReapOnce(now: real) returns (reaped: nat)
      modifies table
      ensures table.rows == ReapAll(old(table.rows), now)
      ensures reaped == |set t | t in old(table.rows) && Expired(old(table.rows)[t], now)|
    {
      reaped := table.ReapExpired(now);
    }
  }
}
