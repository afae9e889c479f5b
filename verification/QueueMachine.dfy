/** Any number of workers, stale executions, crashes and reapers over one tasks table. A state carries
    the table and a history: every execution there ever was, how often each task was reaped, and
    which attempts of it rescheduled it. A disabled action changes nothing. */
module QueueMachine {
  import opened Prelude
  import opened TaskQueue
  import opened Worker

  /** One leased execution; `lease` is the last lease it was granted. */
  datatype Exec = Exec(task: TaskId, owner: Owner, attempt: nat, lease: real, running: bool)

  datatype State = State(
    now: real,
    rows: Rows,
    execs: seq<Exec>,
    reaps: map<TaskId, nat>,
    retried: map<TaskId, set<nat>>)

  /** Time that has passed. */
  type Duration = x: real | x >= 0.0

  /** `age` is how long before its commit a claim ran: leases count from the claim. `locked` are rows it
      passed over because others held them, or did not see. */
  datatype Action =
    | Tick(dt: real)
    | Enqueue(id: TaskId, task: Task)
    | Dequeue(owner: Owner, queue: string, limit: nat, age: Duration, locked: set<TaskId>, claimed: seq<TaskId>)
    | Heartbeat(exec: nat)
    | Finish(exec: nat, outcome: Outcome, draw: real)
    | Crash(exec: nat)
    | Reap
    | CancelChildren(parent: nat)

  function ReapsOf(s: State, t: TaskId): nat {
    if t in s.reaps then s.reaps[t] else 0
  }

  /** The attempt numbers whose execution applied RETRY_LATER to t. */
  function RetriedBy(s: State, t: TaskId): set<nat> {
    if t in s.retried then s.retried[t] else {}
  }

  function Init(now: real): State {
    State(now, map[], [], map[], map[])
  }

  predicate Running(s: State, i: nat) {
    i < |s.execs| && s.execs[i].running && s.execs[i].task in s.rows
  }

  predicate IsNew(r: Task) {
    r.status.Pending? && r.attempt == 0 && r.leaseOwner.None? && r.leaseUntil.None?
  }

  function NewExecs(s: State, claimed: seq<TaskId>, owner: Owner, until: real): seq<Exec> {
    seq(|claimed|, i requires 0 <= i < |claimed| =>
      Exec(claimed[i], owner, if claimed[i] in s.rows then s.rows[claimed[i]].attempt + 1 else 0, until, true))
  }

  function Lease(s: State, claimed: seq<TaskId>, owner: Owner, until: real): State {
    s.(rows := LeaseAll(s.rows, claimed, owner, until), execs := s.execs + NewExecs(s, claimed, owner, until))
  }

  ghost function DoDequeue(c: Config, s: State, owner: Owner, queue: string, limit: nat, age: Duration,
        locked: set<TaskId>, claimed: seq<TaskId>): State {
    if IsSelection(s.rows, queue, s.now, locked, limit, claimed)
    then Lease(s, claimed, owner, s.now - age + c.leaseSeconds)
    else s
  }

  function DoHeartbeat(c: Config, s: State, i: nat): State {
    if Running(s, i) && Holds(s.rows[s.execs[i].task], s.execs[i].owner) then
      var e := s.execs[i];
      s.(rows := s.rows[e.task := HeartbeatRow(s.rows[e.task], e.owner, s.now + c.leaseSeconds)],
         execs := s.execs[i := e.(lease := s.now + c.leaseSeconds)])
    else s
  }

  /** The state after execution i has run its last statement, which turned its row into r'. */
  function AfterFinish(s: State, i: nat, r': Task, retry: bool): State
    requires Running(s, i)
  {
    var e := s.execs[i];
    s.(rows := s.rows[e.task := r'],
       execs := s.execs[i := e.(running := false)],
       retried := if Holds(s.rows[e.task], e.owner) && retry
                  then s.retried[e.task := RetriedBy(s, e.task) + {e.attempt}] else s.retried)
  }

  function DoFinish(c: Config, s: State, i: nat, outcome: Outcome, draw: real): State {
    if Running(s, i) then
      var e := s.execs[i];
      var r := s.rows[e.task];
      AfterFinish(s, i, FinishRow(c, r, e.owner, r.taskType, e.attempt, outcome, s.now, draw),
                  Retries(c, r.taskType, e.attempt, outcome))
    else s
  }

  function DoCrash(s: State, i: nat): State {
    if i < |s.execs| then s.(execs := s.execs[i := s.execs[i].(running := false)]) else s
  }

  function DoReap(s: State): State {
    s.(rows := ReapAll(s.rows, s.now),
       reaps := map t | t in s.rows :: ReapsOf(s, t) + if Expired(s.rows[t], s.now) then 1 else 0)
  }

  function DoEnqueue(s: State, t: TaskId, r: Task): State {
    if t !in s.rows && IsNew(r) then s.(rows := TaskQueue.Enqueue(s.rows, t, r)) else s
  }

  ghost function Next(c: Config, s: State, a: Action): State {
    match a
    case Tick(dt) => if dt >= 0.0 then s.(now := s.now + dt) else s
    case Enqueue(t, r) => DoEnqueue(s, t, r)
    case Dequeue(owner, queue, limit, age, locked, claimed) =>
      DoDequeue(c, s, owner, queue, limit, age, locked, claimed)
    case Heartbeat(i) => DoHeartbeat(c, s, i)
    case Finish(i, outcome, draw) => DoFinish(c, s, i, outcome, draw)
    case Crash(i) => DoCrash(s, i)
    case Reap => DoReap(s)
    case CancelChildren(parent) => s.(rows := TaskQueue.CancelChildren(s.rows, parent))
  }

  ghost function Run(c: Config, s: State, acts: seq<Action>): State {
    if acts == [] then s else Next(c, Run(c, s, acts[..|acts| - 1]), acts[|acts| - 1])
  }

  ghost predicate Reachable(c: Config, s: State) {
    exists now, acts :: s == Run(c, Init(now), acts)
  }

  lemma {:induction false} RunConcat(c: Config, s: State, a: seq<Action>, b: seq<Action>)
    ensures Run(c, s, a + b) == Run(c, Run(c, s, a), b)
  {
    if b == [] {
      assert a + b == a;
    } else {
      assert (a + b)[..|a + b| - 1] == a + b[..|b| - 1];
      RunConcat(c, s, a, b[..|b| - 1]);
    }
  }

  lemma RunStep(c: Config, s: State, acts: seq<Action>, n: nat)
    requires n < |acts|
    ensures Run(c, s, acts[..n + 1]) == Next(c, Run(c, s, acts[..n]), acts[n])
    ensures Run(c, s, acts[..0]) == s
  {
    assert acts[..n + 1][..n] == acts[..n];
  }

  /** The last statement of an execution in the columns of its row: nothing without the lease; with it, a
      success, a failure for good, a dead letter without a handler or once the attempts of the policy are
      spent, and before that a retry after the delay of the attempt. Nothing else moves. */
  lemma FinishSpelled(c: Config, s: State, i: nat, outcome: Outcome, draw: real)
    requires Running(s, i)
    ensures var s', e := Next(c, s, Finish(i, outcome, draw)), s.execs[i];
            && s'.now == s.now && s'.reaps == s.reaps && s'.rows.Keys == s.rows.Keys
            && s'.execs == s.execs[i := e.(running := false)]
            && (forall t :: t in s.rows && t != e.task ==> s'.rows[t] == s.rows[t])
            && var r, r' := s.rows[e.task], s'.rows[e.task];
               if !r.status.Leased? || r.leaseOwner != Some(e.owner) then r' == r
               else
                 && r'.leaseOwner.None? && r'.leaseUntil.None? && r'.attempt == r.attempt
                 && var known, spent := r.taskType in c.handlers, e.attempt >= c.policy.maxAttempts;
                    var raised := outcome.RaisedTransient? || outcome.RaisedOther?;
                    && (r'.status.Succeeded? <==> known && outcome.Returned?)
                    && (r'.status.Failed? <==> known && outcome.RaisedPermanent?)
                    && (r'.status.Dead? <==> !known || (raised && spent))
                    && (r'.status.Pending? <==> known && raised && !spent)
                    && r'.runAfter == if known && raised && !spent then s.now + c.policy.DelayFor(e.attempt, draw)
                                      else r.runAfter
  {
  }

  /** A heartbeat prolongs the lease of its holder, from now, and does nothing for anybody else. */
  lemma HeartbeatSpelled(c: Config, s: State, i: nat)
    requires Running(s, i)
    ensures var s', e := Next(c, s, Heartbeat(i)), s.execs[i];
            var r, until := s.rows[e.task], s.now + c.leaseSeconds;
            if r.status.Leased? && r.leaseOwner == Some(e.owner)
            then s' == s.(rows := s.rows[e.task := r.(leaseUntil := Some(until))],
                          execs := s.execs[i := e.(lease := until)])
            else s' == s
  {
  }

  /** The two statements over the whole table, row by row: a reap returns exactly the leases that have run out,
      and cancelling the children of a parent takes exactly those still pending. */
  lemma SweepsSpelled(c: Config, s: State, parent: nat, t: TaskId)
    requires t in s.rows
    ensures var r, s' := s.rows[t], Next(c, s, Reap);
            && s'.execs == s.execs && s'.rows.Keys == s.rows.Keys
            && s'.rows[t] == if r.status.Leased? && r.leaseUntil.Some? && r.leaseUntil.value < s.now
                             then r.(status := TaskStatus.Pending, leaseOwner := None, leaseUntil := None,
                                     lastError := s'.rows[t].lastError)
                             else r
    ensures var r, s' := s.rows[t], Next(c, s, CancelChildren(parent));
            && s'.execs == s.execs && s'.rows.Keys == s.rows.Keys
            && s'.rows[t] == if r.parent == Some(parent) && r.status.Pending?
                             then r.(status := TaskStatus.Cancelled, leaseOwner := None, leaseUntil := None) else r
  {
  }

  // ---- attempt accounting ----

  /** 1 while an attempt is open or has been spent for good. */
  function Occupied(st: TaskStatus): nat {
    match st
    case Leased => 1
    case Succeeded => 1
    case Failed => 1
    case Dead => 1
    case Pending => 0
    case Cancelled => 0
  }

  /** How many attempts a policy lets end in a retry. */
  function MaxRetries(c: Config): nat {
    if c.policy.maxAttempts >= 1 then c.policy.maxAttempts - 1 else 0
  }

  ghost predicate RowOk(c: Config, s: State, t: TaskId)
    requires t in s.rows
  {
    var r := s.rows[t];
    && r.attempt == |RetriedBy(s, t)| + ReapsOf(s, t) + Occupied(r.status)
    && (r.status.Leased? ==> r.leaseOwner.Some? && r.leaseUntil.Some?)
    && (forall a :: a in RetriedBy(s, t) ==> 1 <= a <= MaxRetries(c) && a <= r.attempt)
  }

  ghost predicate ExecOk(s: State, i: nat)
    requires i < |s.execs|
  {
    var e := s.execs[i];
    && e.task in s.rows && 1 <= e.attempt <= s.rows[e.task].attempt
    && (e.running ==> e.attempt !in RetriedBy(s, e.task))
  }

  /** Executions of one task carry strictly increasing attempt numbers. */
  ghost predicate AttemptsDistinct(s: State) {
    forall i, j :: 0 <= i < j < |s.execs| && s.execs[i].task == s.execs[j].task ==>
        s.execs[i].attempt < s.execs[j].attempt
  }

  ghost predicate Accounted(c: Config, s: State) {
    && (forall t :: t in s.rows ==> RowOk(c, s, t))
    && (forall t :: t !in s.rows ==> RetriedBy(s, t) == {} && ReapsOf(s, t) == 0)
    && (forall i :: 0 <= i < |s.execs| ==> ExecOk(s, i))
    && AttemptsDistinct(s)
  }

  lemma DequeueAccounted(c: Config, s: State, owner: Owner, queue: string, limit: nat, age: Duration,
        locked: set<TaskId>, claimed: seq<TaskId>)
    requires Accounted(c, s)
    ensures Accounted(c, DoDequeue(c, s, owner, queue, limit, age, locked, claimed))
  {
    if IsSelection(s.rows, queue, s.now, locked, limit, claimed) {
      var s' := DoDequeue(c, s, owner, queue, limit, age, locked, claimed);
      var n := |s.execs|;
      forall t | t in s'.rows ensures RowOk(c, s', t) {
        assert RowOk(c, s, t);
        assert t in claimed ==> t in Eligible(s.rows, queue, s.now, locked);
      }
      forall i | 0 <= i < |s'.execs| ensures ExecOk(s', i) {
        if i < n {
          assert ExecOk(s, i);
        } else {
          var t := claimed[i - n];
          assert t in Eligible(s.rows, queue, s.now, locked) && RowOk(c, s, t);
        }
      }
      forall i, j | 0 <= i < j < |s'.execs| && s'.execs[i].task == s'.execs[j].task
        ensures s'.execs[i].attempt < s'.execs[j].attempt
      {
        if i < n <= j {
          assert ExecOk(s, i);
          assert claimed[j - n] in Eligible(s.rows, queue, s.now, locked);
        }
      }
    }
  }

  lemma HeartbeatAccounted(c: Config, s: State, i: nat)
    requires Accounted(c, s)
    ensures Accounted(c, DoHeartbeat(c, s, i))
  {
    var s' := DoHeartbeat(c, s, i);
    forall t | t in s'.rows ensures RowOk(c, s', t) {
      assert RowOk(c, s, t);
    }
    forall k | 0 <= k < |s'.execs| ensures ExecOk(s', k) {
      assert ExecOk(s, k);
    }
  }

  lemma AfterFinishRows(c: Config, s: State, i: nat, r': Task, retry: bool, outcome: Outcome)
    requires Accounted(c, s) && Running(s, i)
    requires Finished(s.rows[s.execs[i].task], r', s.execs[i].owner, retry, outcome)
    requires retry ==> s.execs[i].attempt <= MaxRetries(c)
    ensures forall t :: t in s.rows ==>
        t in AfterFinish(s, i, r', retry).rows && RowOk(c, AfterFinish(s, i, r', retry), t)
  {
    var s' := AfterFinish(s, i, r', retry);
    assert ExecOk(s, i);
    forall t | t in s.rows ensures RowOk(c, s', t) {
      assert RowOk(c, s, t);
    }
  }

  lemma AfterFinishExecs(c: Config, s: State, i: nat, r': Task, retry: bool)
    requires Accounted(c, s) && Running(s, i) && r'.attempt == s.rows[s.execs[i].task].attempt
    ensures forall k :: 0 <= k < |s.execs| ==> ExecOk(AfterFinish(s, i, r', retry), k)
  {
    var s' := AfterFinish(s, i, r', retry);
    var e := s.execs[i];
    forall k | 0 <= k < |s'.execs| ensures ExecOk(s', k) {
      assert ExecOk(s, k);
      if k != i && s.execs[k].task == e.task {
        assert s.execs[k].attempt != e.attempt;
      }
    }
  }

  lemma AfterFinishAccounted(c: Config, s: State, i: nat, r': Task, retry: bool, outcome: Outcome)
    requires Accounted(c, s) && Running(s, i)
    requires Finished(s.rows[s.execs[i].task], r', s.execs[i].owner, retry, outcome)
    requires retry ==> s.execs[i].attempt <= MaxRetries(c)
    ensures Accounted(c, AfterFinish(s, i, r', retry))
  {
    assert ExecOk(s, i);
    AfterFinishRows(c, s, i, r', retry, outcome);
    AfterFinishExecs(c, s, i, r', retry);
  }

  lemma FinishAccounted(c: Config, s: State, i: nat, outcome: Outcome, draw: real)
    requires Accounted(c, s)
    ensures Accounted(c, DoFinish(c, s, i, outcome, draw))
  {
    if Running(s, i) {
      var e := s.execs[i];
      var r := s.rows[e.task];
      FinishRowEffect(c, r, e.owner, r.taskType, e.attempt, outcome, s.now, draw);
      var r' := FinishRow(c, r, e.owner, r.taskType, e.attempt, outcome, s.now, draw);
      AfterFinishAccounted(c, s, i, r', Retries(c, r.taskType, e.attempt, outcome), outcome);
    }
  }

  lemma CrashAccounted(c: Config, s: State, i: nat)
    requires Accounted(c, s)
    ensures Accounted(c, DoCrash(s, i))
  {
    var s' := DoCrash(s, i);
    forall t | t in s'.rows ensures RowOk(c, s', t) {
      assert RowOk(c, s, t);
    }
    forall k | 0 <= k < |s'.execs| ensures ExecOk(s', k) {
      assert ExecOk(s, k);
    }
  }

  lemma ReapAccounted(c: Config, s: State)
    requires Accounted(c, s)
    ensures Accounted(c, DoReap(s))
  {
    var s' := DoReap(s);
    forall t | t in s'.rows ensures RowOk(c, s', t) {
      assert RowOk(c, s, t);
    }
    forall k | 0 <= k < |s'.execs| ensures ExecOk(s', k) {
      assert ExecOk(s, k);
    }
  }

  lemma EnqueueAccounted(c: Config, s: State, id: TaskId, r: Task)
    requires Accounted(c, s)
    ensures Accounted(c, DoEnqueue(s, id, r))
  {
    var s' := DoEnqueue(s, id, r);
    forall t | t in s'.rows ensures RowOk(c, s', t) {
      if t in s.rows {
        assert RowOk(c, s, t);
      }
    }
    forall k | 0 <= k < |s'.execs| ensures ExecOk(s', k) {
      assert ExecOk(s, k);
    }
  }

  lemma CancelAccounted(c: Config, s: State, parent: nat)
    requires Accounted(c, s)
    ensures Accounted(c, s.(rows := TaskQueue.CancelChildren(s.rows, parent)))
  {
    var s' := s.(rows := TaskQueue.CancelChildren(s.rows, parent));
    forall t | t in s'.rows ensures RowOk(c, s', t) {
      assert RowOk(c, s, t);
    }
    forall k | 0 <= k < |s'.execs| ensures ExecOk(s', k) {
      assert ExecOk(s, k);
    }
  }

  lemma ClockAccounted(c: Config, s: State, now: real)
    requires Accounted(c, s)
    ensures Accounted(c, s.(now := now))
  {
    var s' := s.(now := now);
    forall t | t in s'.rows ensures RowOk(c, s', t) {
      assert RowOk(c, s, t);
    }
    forall k | 0 <= k < |s'.execs| ensures ExecOk(s', k) {
      assert ExecOk(s, k);
    }
  }

  lemma NextAccounted(c: Config, s: State, a: Action)
    requires Accounted(c, s)
    ensures Accounted(c, Next(c, s, a))
  {
    match a
    case Tick(dt) => ClockAccounted(c, s, s.now + dt);
    case Enqueue(t, r) => EnqueueAccounted(c, s, t, r);
    case Dequeue(owner, queue, limit, age, locked, claimed) =>
      DequeueAccounted(c, s, owner, queue, limit, age, locked, claimed);
    case Heartbeat(i) => HeartbeatAccounted(c, s, i);
    case Finish(i, outcome, draw) => FinishAccounted(c, s, i, outcome, draw);
    case Crash(i) => CrashAccounted(c, s, i);
    case Reap => ReapAccounted(c, s);
    case CancelChildren(parent) => CancelAccounted(c, s, parent);
  }

  lemma {:induction false} RunAccounted(c: Config, s: State, acts: seq<Action>)
    requires Accounted(c, s)
    ensures Accounted(c, Run(c, s, acts))
  {
    if acts != [] {
      RunAccounted(c, s, acts[..|acts| - 1]);
      NextAccounted(c, Run(c, s, acts[..|acts| - 1]), acts[|acts| - 1]);
    }
  }

  lemma ReachableAccounted(c: Config, s: State)
    requires Reachable(c, s)
    ensures Accounted(c, s)
  {
    var now, acts :| s == Run(c, Init(now), acts);
    RunAccounted(c, Init(now), acts);
  }

  /** In every reachable state the attempt counter of a task is what happened to it, retries stay
      within the policy's budget, and attempts within budget plus reaps. */
  lemma AttemptAccounting(c: Config, s: State, t: TaskId)
    requires Reachable(c, s) && t in s.rows
    ensures s.rows[t].attempt == |RetriedBy(s, t)| + ReapsOf(s, t) + Occupied(s.rows[t].status)
    ensures |RetriedBy(s, t)| <= MaxRetries(c)
    ensures s.rows[t].attempt <= MaxRetries(c) + 1 + ReapsOf(s, t)
    ensures forall i, j :: 0 <= i < j < |s.execs| && s.execs[i].task == s.execs[j].task ==>
        s.execs[i].attempt != s.execs[j].attempt
  {
    ReachableAccounted(c, s);
    assert RowOk(c, s, t);
    BelowBound(RetriedBy(s, t), MaxRetries(c) + 1);
  }
}
