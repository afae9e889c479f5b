/** The whole pipeline: the queue machine and the send machine side by side. Execution i of the queue
    runs handler call i of the sender; a task is finished with the outcome its handler call had. */
module Pipeline {
  import opened Prelude
  import opened Transitions
  import opened Models
  import opened TaskQueue
  import opened Worker
  import opened FakeProvider
  import Q = QueueMachine
  import S = SendMachine
  import opened SendSafety
  import opened SendTheorems
  import opened AcceptedJobs

  datatype World = World(q: Q.State, s: S.State)

  datatype Action =
    | Queue(qa: Q.Action)            // enqueue, dequeue, heartbeat, reap, cancel children
    | Tick(dt: real)
    | Handler(exec: nat, verdict: Verdict)
    | HandlerTimesOut(exec: nat, error: string)
    | HandlerAborts(exec: nat, error: string)
    | Finish(exec: nat, draw: real)
    | Crash(exec: nat)
    | InsertJob(job: JobId, campaign: nat, toAddr: string)
    | CancelJob(job: JobId)
    | Webhook(sa: S.Action)          // ingest, process, sweep

  predicate HandlerRuns(c: Config, w: World, i: nat) {
    Q.Running(w.q, i) && i < |w.s.execs| && w.q.rows[w.q.execs[i].task].taskType in c.handlers
  }

  predicate MayFinish(c: Config, w: World, i: nat) {
    && Q.Running(w.q, i) && i < |w.s.execs|
    && (w.q.rows[w.q.execs[i].task].taskType !in c.handlers || w.s.execs[i].phase.Ended?)
  }

  function OutcomeOf(p: S.Phase): Outcome {
    if p.Ended? then p.outcome else Returned
  }

  /** One handler call per claimed task, on the job its payload names. */
  function Starts(rows: Rows, claimed: seq<TaskId>): seq<S.Action> {
    if claimed == [] then []
    else
      var t := claimed[|claimed| - 1];
      Starts(rows, claimed[..|claimed| - 1]) + [S.Start(if t in rows then rows[t].payload else 0)]
  }

  predicate Referenced(q: Q.State, j: JobId) {
    exists t :: t in q.rows && q.rows[t].payload == j
  }

  /** The actions of the queue and of the sender that make up one action of the pipeline. */
  ghost function QueueActs(c: Config, w: World, a: Action): seq<Q.Action> {
    match a
    case Queue(qa) => if qa.Tick? || qa.Finish? || qa.Crash? then [] else [qa]
    case Tick(dt) => [Q.Tick(dt)]
    case Finish(i, draw) => if MayFinish(c, w, i) then [Q.Finish(i, OutcomeOf(w.s.execs[i].phase), draw)] else []
    case Crash(i) => [Q.Crash(i)]
    case _ => []
  }

  ghost function SendActs(c: Config, w: World, a: Action): seq<S.Action> {
    match a
    case Queue(qa) =>
      if qa.Dequeue? && IsSelection(w.q.rows, qa.queue, w.q.now, qa.locked, qa.limit, qa.claimed)
      then Starts(w.q.rows, qa.claimed) else []
    case Tick(dt) => [S.Tick(dt)]
    case Handler(i, v) => if HandlerRuns(c, w, i) then [S.Step(i, v)] else []
    case HandlerTimesOut(i, e) => if HandlerRuns(c, w, i) then [S.Timeout(i, e)] else []
    case HandlerAborts(i, e) => if HandlerRuns(c, w, i) then [S.Abort(i, e)] else []
    case Crash(i) => [S.Crash(i)]
    case InsertJob(j, campaign, addr) => if Referenced(w.q, j) then [] else [S.InsertJob(j, campaign, addr)]
    case CancelJob(j) => [S.CancelJob(j)]
    case Webhook(sa) => if sa.Ingest? || sa.Process? || sa.Sweep? then [sa] else []
    case _ => []
  }

  ghost function Next(c: Config, g: S.Granularity, w: World, a: Action): World {
    World(Q.Run(c, w.q, QueueActs(c, w, a)), S.Run(g, w.s, SendActs(c, w, a)))
  }

  ghost function Run(c: Config, g: S.Granularity, w: World, acts: seq<Action>): World {
    if acts == [] then w else Next(c, g, Run(c, g, w, acts[..|acts| - 1]), acts[|acts| - 1])
  }

  function Init(now: real): World {
    World(Q.Init(now), S.Init(now))
  }

  ghost predicate Reachable(c: Config, g: S.Granularity, w: World) {
    exists now, acts :: w == Run(c, g, Init(now), acts)
  }

  /** Every run of the pipeline is a run of the queue and a run of the sender, so whatever holds of
      all their runs holds here. */
  lemma {:induction false} RunProjects(c: Config, g: S.Granularity, now: real, acts: seq<Action>)
    ensures Q.Reachable(c, Run(c, g, Init(now), acts).q)
    ensures S.Reachable(g, Run(c, g, Init(now), acts).s)
  {
    if acts == [] {
      assert Q.Run(c, Q.Init(now), []) == Q.Init(now) && S.Run(g, S.Init(now), []) == S.Init(now);
    } else {
      var w := Run(c, g, Init(now), acts[..|acts| - 1]);
      RunProjects(c, g, now, acts[..|acts| - 1]);
      var qnow, qacts :| w.q == Q.Run(c, Q.Init(qnow), qacts);
      var snow, sacts :| w.s == S.Run(g, S.Init(snow), sacts);
      Q.RunConcat(c, Q.Init(qnow), qacts, QueueActs(c, w, acts[|acts| - 1]));
      S.RunConcat(g, S.Init(snow), sacts, SendActs(c, w, acts[|acts| - 1]));
    }
  }

  // ---- agreement of the two machines ----

  ghost predicate Linked(w: World) {
    && |w.q.execs| == |w.s.execs|
    && forall i :: 0 <= i < |w.q.execs| ==>
         w.q.execs[i].task in w.q.rows && w.s.execs[i].job == w.q.rows[w.q.execs[i].task].payload
  }

  ghost predicate TaskAgrees(w: World, t: TaskId)
    requires t in w.q.rows
  {
    var j := w.q.rows[t].payload;
    && (w.q.rows[t].status.Succeeded? ==> Terminal(w.s.db, j))
    && (w.q.rows[t].status.Failed? ==> j !in w.s.db.jobs || w.s.db.jobs[j].status == SendStatus.FailedPermanent)
  }

  ghost predicate Agreement(w: World) {
    Linked(w) && forall t :: t in w.q.rows ==> TaskAgrees(w, t)
  }

  lemma {:induction false} StartsAppend(g: S.Granularity, s: S.State, rows: Rows, claimed: seq<TaskId>)
    ensures var s' := S.Run(g, s, Starts(rows, claimed));
            && s'.db == s.db && s'.provider == s.provider && |s'.execs| == |s.execs| + |claimed|
            && s'.execs[..|s.execs|] == s.execs
            && forall k :: 0 <= k < |claimed| && claimed[k] in rows ==>
                  s'.execs[|s.execs| + k].job == rows[claimed[k]].payload
  {
    if claimed != [] {
      var init := claimed[..|claimed| - 1];
      StartsAppend(g, s, rows, init);
      var all := Starts(rows, claimed);
      assert all[..|all| - 1] == Starts(rows, init);
    }
  }

  lemma OneAct(c: Config, q: Q.State, a: Q.Action)
    ensures Q.Run(c, q, [a]) == Q.Next(c, q, a)
  {
    Q.RunStep(c, q, [a], 0);
    assert [a][..1] == [a];
  }

  lemma OneSend(g: S.Granularity, s: S.State, a: S.Action)
    ensures S.Run(g, s, [a]) == S.Next(g, s, a)
  {
    S.RunStep(g, s, [a], 0);
    assert [a][..1] == [a];
  }

  /** Nothing a handler call or anyone else does on the sender's side takes back a settled job, and no
      job appears under an id that a task already names. */
  ghost predicate JobsSettle(w: World, s': S.State) {
    && AllGrow(w.s.db, s'.db)
    && forall j :: j in s'.db.jobs && j !in w.s.db.jobs ==> !Referenced(w.q, j)
  }

  lemma SendSide(c: Config, g: S.Granularity, w: World, a: Action)
    requires !a.Queue?
    ensures var s' := S.Run(g, w.s, SendActs(c, w, a));
            JobsSettle(w, s') && |s'.execs| == |w.s.execs| && forall i :: 0 <= i < |w.s.execs| ==>
                s'.execs[i].job == w.s.execs[i].job
  {
    var acts := SendActs(c, w, a);
    RunGrows(g, w.s, acts);
    if acts != [] {
      assert acts == [acts[0]];
      OneSend(g, w.s, acts[0]);
      SendKeepsJobs(g, w.s, acts[0]);
    }
  }

  /** Only an insert adds a job, and no action but a start adds an execution. */
  lemma SendKeepsJobs(g: S.Granularity, s: S.State, a: S.Action)
    requires !a.Start?
    ensures var s' := S.Next(g, s, a);
            && |s'.execs| == |s.execs| && (forall i :: 0 <= i < |s.execs| ==> s'.execs[i].job == s.execs[i].job)
            && forall j :: j in s'.db.jobs && j !in s.db.jobs ==> a.InsertJob? && j == a.job
  {
    SendKeepsExecs(g, s, a);
    match a
    case Step(i, v) => if i < |s.execs| { StepKeepsKeys(g, s, i, v); }
    case _ =>
  }

  lemma SendKeepsExecs(g: S.Granularity, s: S.State, a: S.Action)
    requires !a.Start?
    ensures var s' := S.Next(g, s, a);
            |s'.execs| == |s.execs| && (forall i :: 0 <= i < |s.execs| ==> s'.execs[i].job == s.execs[i].job)
  {
  }

  lemma StepKeepsKeys(g: S.Granularity, s: S.State, i: nat, v: Verdict)
    requires i < |s.execs|
    ensures S.DoStep(g, s, i, v).db.jobs.Keys == s.db.jobs.Keys
  {
    StepDb(g, s, i, v);
  }

  /** The queue only ever succeeds or fails a row through the last statement of an execution. */
  lemma QueueSide(c: Config, q: Q.State, a: Q.Action)
    requires !a.Finish?
    ensures var q' := Q.Next(c, q, a);
            && RowsQuiet(q.rows, q'.rows)
            && (!a.Dequeue? ==> |q'.execs| == |q.execs| && forall i :: 0 <= i < |q.execs| ==>
                  q'.execs[i].task == q.execs[i].task)
  {
    if a.Dequeue? {
      DequeueSide(c, q, a);
    } else {
      QueueKeepsExecs(c, q, a);
      TableSide(c, q, a);
    }
  }

  ghost predicate RowsQuiet(rows: Rows, rows': Rows) {
    && (forall t :: t in rows ==> t in rows' && SameTask(rows[t], rows'[t]))
    && (forall t :: t in rows' && (rows'[t].status.Succeeded? || rows'[t].status.Failed?) ==>
          t in rows && rows[t].status == rows'[t].status)
  }

  lemma DequeueSide(c: Config, q: Q.State, a: Q.Action)
    requires a.Dequeue?
    ensures RowsQuiet(q.rows, Q.Next(c, q, a).rows)
  {
    assert forall t :: t in a.claimed && t in Eligible(q.rows, a.queue, q.now, a.locked) ==> q.rows[t].status.Pending?;
  }

  lemma TableSide(c: Config, q: Q.State, a: Q.Action)
    requires !a.Dequeue? && !a.Finish?
    ensures RowsQuiet(q.rows, Q.Next(c, q, a).rows)
  {
    match a
    case Enqueue(t, r) => EnqueueQuiet(q, t, r);
    case Reap => ReapQuiet(q);
    case CancelChildren(parent) => CancelQuiet(q.rows, parent);
    case Heartbeat(i) => HeartbeatQuiet(c, q, i);
    case _ =>
  }

  lemma EnqueueQuiet(q: Q.State, t: TaskId, r: Task)
    ensures RowsQuiet(q.rows, Q.DoEnqueue(q, t, r).rows)
  {
  }

  lemma ReapQuiet(q: Q.State)
    ensures RowsQuiet(q.rows, Q.DoReap(q).rows)
  {
  }

  lemma CancelQuiet(rows: Rows, parent: nat)
    ensures RowsQuiet(rows, TaskQueue.CancelChildren(rows, parent))
  {
  }

  lemma HeartbeatQuiet(c: Config, q: Q.State, i: nat)
    ensures RowsQuiet(q.rows, Q.DoHeartbeat(c, q, i).rows)
  {
  }

  lemma QueueKeepsExecs(c: Config, q: Q.State, a: Q.Action)
    requires !a.Dequeue?
    ensures var q' := Q.Next(c, q, a);
            |q'.execs| == |q.execs| && forall i :: 0 <= i < |q.execs| ==> q'.execs[i].task == q.execs[i].task
  {
  }

  lemma QuietAgreement(c: Config, w: World, w': World)
    requires Agreement(w)
    requires JobsSettle(w, w'.s)
    requires forall t :: t in w.q.rows ==> t in w'.q.rows && SameTask(w.q.rows[t], w'.q.rows[t])
    requires forall t :: t in w'.q.rows && (w'.q.rows[t].status.Succeeded? || w'.q.rows[t].status.Failed?) ==>
               (t in w.q.rows && w.q.rows[t].status == w'.q.rows[t].status) || TaskAgrees(w', t)
    requires Linked(w')
    ensures Agreement(w')
  {
    forall t | t in w'.q.rows ensures TaskAgrees(w', t) {
      if t in w.q.rows && w.q.rows[t].status == w'.q.rows[t].status {
        assert TaskAgrees(w, t);
        var j := w.q.rows[t].payload;
        assert Referenced(w.q, j);
        if j in w.s.db.jobs {
          assert Grows(w.s.db.jobs[j], w'.s.db.jobs[j]);
        }
      }
    }
  }

  lemma DequeueLinked(c: Config, w: World, w': World, qa: Q.Action)
    requires Linked(w) && qa.Dequeue? && IsSelection(w.q.rows, qa.queue, w.q.now, qa.locked, qa.limit, qa.claimed)
    requires w'.q == Q.DoDequeue(c, w.q, qa.owner, qa.queue, qa.limit, qa.age, qa.locked, qa.claimed)
    requires |w'.s.execs| == |w.s.execs| + |qa.claimed| && w'.s.execs[..|w.s.execs|] == w.s.execs
    requires forall k :: 0 <= k < |qa.claimed| && qa.claimed[k] in w.q.rows ==>
               w'.s.execs[|w.s.execs| + k].job == w.q.rows[qa.claimed[k]].payload
    ensures Linked(w')
  {
    var n := |w.q.execs|;
    forall i | 0 <= i < |w'.q.execs|
      ensures w'.q.execs[i].task in w'.q.rows && w'.s.execs[i].job == w'.q.rows[w'.q.execs[i].task].payload
    {
      if i < n {
        assert w'.s.execs[i] == w'.s.execs[..n][i] == w.s.execs[i];
      } else {
        assert qa.claimed[i - n] in Eligible(w.q.rows, qa.queue, w.q.now, qa.locked);
      }
    }
  }

  lemma DequeueAgreement(c: Config, g: S.Granularity, w: World, qa: Q.Action)
    requires Agreement(w) && Q.Accounted(c, w.q) && qa.Dequeue?
    ensures Agreement(Next(c, g, w, Queue(qa)))
  {
    var w' := Next(c, g, w, Queue(qa));
    OneAct(c, w.q, qa);
    QueueSide(c, w.q, qa);
    DequeueBoth(c, g, w, qa);
    assert JobsSettle(w, w'.s) by { RunGrows(g, w.s, []); }
    QuietAgreement(c, w, w');
  }

  lemma DequeueBoth(c: Config, g: S.Granularity, w: World, qa: Q.Action)
    requires Linked(w) && qa.Dequeue?
    ensures Linked(Next(c, g, w, Queue(qa))) && Next(c, g, w, Queue(qa)).s.db == w.s.db
  {
    DequeueUnfolds(c, g, w, qa);
    if IsSelection(w.q.rows, qa.queue, w.q.now, qa.locked, qa.limit, qa.claimed) {
      var q' := Q.DoDequeue(c, w.q, qa.owner, qa.queue, qa.limit, qa.age, qa.locked, qa.claimed);
      DequeueStarts(c, g, w, World(q', S.Run(g, w.s, Starts(w.q.rows, qa.claimed))), qa);
    }
  }

  lemma DequeueStarts(c: Config, g: S.Granularity, w: World, w': World, qa: Q.Action)
    requires Linked(w) && qa.Dequeue? && IsSelection(w.q.rows, qa.queue, w.q.now, qa.locked, qa.limit, qa.claimed)
    requires w'.q == Q.DoDequeue(c, w.q, qa.owner, qa.queue, qa.limit, qa.age, qa.locked, qa.claimed)
    requires w'.s == S.Run(g, w.s, Starts(w.q.rows, qa.claimed))
    ensures Linked(w') && w'.s.db == w.s.db
  {
    StartsAppend(g, w.s, w.q.rows, qa.claimed);
    DequeueLinked(c, w, w', qa);
  }

  lemma DequeueUnfolds(c: Config, g: S.Granularity, w: World, qa: Q.Action)
    requires qa.Dequeue?
    ensures Next(c, g, w, Queue(qa)) ==
            if IsSelection(w.q.rows, qa.queue, w.q.now, qa.locked, qa.limit, qa.claimed)
            then World(Q.DoDequeue(c, w.q, qa.owner, qa.queue, qa.limit, qa.age, qa.locked, qa.claimed),
                S.Run(g, w.s, Starts(w.q.rows, qa.claimed)))
            else w
  {
    OneAct(c, w.q, qa);
  }

  lemma QueueAgreement(c: Config, g: S.Granularity, w: World, qa: Q.Action)
    requires Agreement(w) && Q.Accounted(c, w.q) && !qa.Dequeue?
    ensures Agreement(Next(c, g, w, Queue(qa)))
  {
    var w' := Next(c, g, w, Queue(qa));
    RunGrows(g, w.s, []);
    if !(qa.Tick? || qa.Finish? || qa.Crash?) {
      OneAct(c, w.q, qa);
      QueueSide(c, w.q, qa);
      QuietAgreement(c, w, w');
    }
  }

  /** A task is finished as its handler call ended: at this granularity a normal return means the job
      has settled, and a permanent error that it has failed for good or never existed. */
  lemma FinishAgreement(c: Config, w: World, i: nat, draw: real)
    requires Agreement(w) && Core(S.PerTransaction, w.s)
    ensures Agreement(Next(c, S.PerTransaction, w, Finish(i, draw)))
  {
    RunGrows(S.PerTransaction, w.s, []);
    if MayFinish(c, w, i) {
      var e := w.q.execs[i];
      var r := w.q.rows[e.task];
      var outcome := OutcomeOf(w.s.execs[i].phase);
      OneAct(c, w.q, Q.Finish(i, outcome, draw));
      FinishRowEffect(c, r, e.owner, r.taskType, e.attempt, outcome, w.q.now, draw);
      NoHandlerIsDead(c, r, e.owner, e.attempt, outcome, w.q.now, draw);
      var r' := FinishRow(c, r, e.owner, r.taskType, e.attempt, outcome, w.q.now, draw);
      var retry := Retries(c, r.taskType, e.attempt, outcome);
      FinishedAgrees(c, w, Next(c, S.PerTransaction, w, Finish(i, draw)), i, r', retry, outcome);
    }
  }

  /** The queue after the last statement of execution i, which left r' in its row. */
  lemma FinishedAgrees(c: Config, w: World, w': World, i: nat, r': Task, retry: bool, outcome: Outcome)
    requires Agreement(w) && Core(S.PerTransaction, w.s) && MayFinish(c, w, i) && w'.s == w.s && AllGrow(w.s.db, w.s.db)
    requires w'.q == Q.AfterFinish(w.q, i, r', retry) && outcome == OutcomeOf(w.s.execs[i].phase)
    requires var e := w.q.execs[i];
             && Finished(w.q.rows[e.task], r', e.owner, retry, outcome)
             && (w.q.rows[e.task].taskType !in c.handlers && Holds(w.q.rows[e.task], e.owner) ==> r'.status.Dead?)
    ensures Agreement(w')
  {
    assert ExecOk(S.PerTransaction, w.s, w.s.execs[i]);
    QuietAgreement(c, w, w');
  }

  lemma NoHandlerIsDead(c: Config, r: Task, owner: Owner, attempt: nat, outcome: Outcome, now: real, draw: real)
    ensures r.taskType !in c.handlers && Holds(r, owner) ==>
        FinishRow(c, r, owner, r.taskType, attempt, outcome, now, draw).status.Dead?
  {
  }

  lemma HandlerAgreement(c: Config, g: S.Granularity, w: World, a: Action)
    requires Agreement(w) && Q.Accounted(c, w.q) && !a.Queue? && !a.Finish?
    ensures Agreement(Next(c, g, w, a))
  {
    SendSide(c, g, w, a);
    HandlerQueue(c, g, w, a);
    QuietAgreement(c, w, Next(c, g, w, a));
  }

  /** What a handler's step, the clock or a crash does to the queue: at most the clock or the phase. */
  lemma HandlerQueue(c: Config, g: S.Granularity, w: World, a: Action)
    requires !a.Queue? && !a.Finish?
    ensures var q' := Next(c, g, w, a).q;
            && q'.rows == w.q.rows && |q'.execs| == |w.q.execs|
            && forall i :: 0 <= i < |w.q.execs| ==> q'.execs[i].task == w.q.execs[i].task
  {
    match a
    case Tick(dt) => OneAct(c, w.q, Q.Tick(dt));
    case Crash(i) => OneAct(c, w.q, Q.Crash(i));
    case _ =>
  }

  lemma {:induction false} RunAgrees(c: Config, now: real, acts: seq<Action>)
    ensures Agreement(Run(c, S.PerTransaction, Init(now), acts))
  {
    if acts != [] {
      var init, a := acts[..|acts| - 1], acts[|acts| - 1];
      var w := Run(c, S.PerTransaction, Init(now), init);
      RunAgrees(c, now, init);
      RunProjects(c, S.PerTransaction, now, init);
      Q.ReachableAccounted(c, w.q);
      ReachableInv(S.PerTransaction, w.s);
      match a
      case Queue(qa) =>
        if qa.Dequeue? {
          DequeueAgreement(c, S.PerTransaction, w, qa);
        } else {
          QueueAgreement(c, S.PerTransaction, w, qa);
        }
      case Finish(i, draw) => FinishAgreement(c, w, i, draw);
      case _ => HandlerAgreement(c, S.PerTransaction, w, a);
    }
  }

  /** Task and job agree in every reachable state, through stale executions and crashes that roll the
      job row back after the provider accepted: the job of a succeeded task has settled, and a failed
      task's job has failed for good or never existed. */
  lemma TaskJobAgreement(c: Config, w: World, t: TaskId)
    requires Reachable(c, S.PerTransaction, w) && t in w.q.rows
    ensures w.q.rows[t].status.Succeeded? ==> Terminal(w.s.db, w.q.rows[t].payload)
    ensures w.q.rows[t].status.Failed? ==>
              w.q.rows[t].payload !in w.s.db.jobs ||
                  w.s.db.jobs[w.q.rows[t].payload].status == SendStatus.FailedPermanent
  {
    var now, acts :| w == Run(c, S.PerTransaction, Init(now), acts);
    RunAgrees(c, now, acts);
    assert TaskAgrees(w, t);
  }

  /** Nothing is lost: in every reachable state a message the provider accepted belongs to a job that is
      sent, or can still be claimed and will then be recorded under the same id, or has been cancelled. And
      if a settled task names that job, the record has not been lost silently: after a success the job is
      sent or cancelled, a failed task's key was never accepted, and what is left is visible as a dead
      letter or a cancelled task. */
  lemma AcceptedNeverLost(c: Config, w: World, t: TaskId)
    requires Reachable(c, S.PerTransaction, w) && t in w.q.rows
    ensures forall j :: j in w.s.provider.cache ==>
              j in w.s.db.jobs && w.s.db.jobs[j].status in CLAIMABLE + {SendStatus.Sent, SendStatus.Cancelled}
    ensures var j, status := w.q.rows[t].payload, w.q.rows[t].status;
            j in w.s.provider.cache && status in TaskQueue.SETTLED ==>
              && !status.Failed?
              && (status.Succeeded? ==> w.s.db.jobs[j].status in {SendStatus.Sent, SendStatus.Cancelled})
  {
    TaskJobAgreement(c, w, t);
    ReachableSender(c, w);
    AllAccountedFor(w.s);
    if w.q.rows[t].status in SETTLED {
      SettledTaskAndJob(w.s, w.q.rows[t].payload, w.q.rows[t].status);
    }
  }

  lemma ReachableSender(c: Config, w: World)
    requires Reachable(c, S.PerTransaction, w)
    ensures S.Reachable(S.PerTransaction, w.s)
  {
    var now, acts :| w == Run(c, S.PerTransaction, Init(now), acts);
    RunProjects(c, S.PerTransaction, now, acts);
  }

  lemma AllAccountedFor(s: S.State)
    requires S.Reachable(S.PerTransaction, s)
    ensures forall j :: j in s.provider.cache ==>
              j in s.db.jobs && s.db.jobs[j].status in CLAIMABLE + {SendStatus.Sent, SendStatus.Cancelled}
  {
    forall j | j in s.provider.cache
      ensures j in s.db.jobs && s.db.jobs[j].status in CLAIMABLE + {SendStatus.Sent, SendStatus.Cancelled}
    {
      AcceptedIsAccountedFor(s, j);
    }
  }

  /** Nothing is sent twice and nothing is lost: messages created are keys accepted, once each; a job
      shown as sent was accepted under the id and at the time its row holds; and once a task is settled,
      its job was accepted and recorded, or it was not accepted, or the task or the job shows why not:
      dead letter or cancellation. */
  lemma NothingLostNothingTwice(c: Config, w: World, t: TaskId)
    requires Reachable(c, S.PerTransaction, w) && t in w.q.rows && w.q.rows[t].status in SETTLED
    ensures w.s.provider.providerSends == |w.s.provider.cache|
    ensures var j := w.q.rows[t].payload;
            j in w.s.db.jobs && w.s.db.jobs[j].status == SendStatus.Sent ==>
              && j in w.s.provider.cache
              && w.s.db.jobs[j].mid == Some(w.s.provider.cache[j].mid)
              && w.s.db.jobs[j].sentAt == Some(w.s.provider.cache[j].at)
    ensures var j, status := w.q.rows[t].payload, w.q.rows[t].status;
            j in w.s.provider.cache ==>
              && j in w.s.db.jobs
              && (w.s.db.jobs[j].status in {SendStatus.Sent, SendStatus.Cancelled} || status.Dead? || status.Cancelled?)
    ensures var j, status := w.q.rows[t].payload, w.q.rows[t].status;
            j !in w.s.provider.cache ==>
              j !in w.s.db.jobs || status.Dead? || status.Cancelled?
              || w.s.db.jobs[j].status in {SendStatus.FailedPermanent, SendStatus.Cancelled}
  {
    TaskJobAgreement(c, w, t);
    ReachableSender(c, w);
    EffectivelyOnce(S.PerTransaction, w.s);
    SettledTaskAndJob(w.s, w.q.rows[t].payload, w.q.rows[t].status);
  }

  lemma SettledTaskAndJob(s: S.State, j: JobId, status: TaskStatus)
    requires S.Reachable(S.PerTransaction, s) && status in SETTLED
    requires status.Succeeded? ==> Terminal(s.db, j)
    requires status.Failed? ==> j !in s.db.jobs || s.db.jobs[j].status == SendStatus.FailedPermanent
    ensures j in s.provider.cache ==>
              && j in s.db.jobs && !status.Failed?
              && (status.Succeeded? ==> s.db.jobs[j].status in {SendStatus.Sent, SendStatus.Cancelled})
              && (s.db.jobs[j].status in {SendStatus.Sent, SendStatus.Cancelled} || status.Dead? || status.Cancelled?)
    ensures j !in s.provider.cache ==>
              j !in s.db.jobs || status.Dead? || status.Cancelled?
              || s.db.jobs[j].status in {SendStatus.FailedPermanent, SendStatus.Cancelled}
  {
    if j in s.provider.cache {
      AcceptedIsAccountedFor(s, j);
    }
    if Terminal(s.db, j) {
      SettledJobKinds(s, j);
      EffectivelyOnce(S.PerTransaction, s);
    }
  }

  /** The terminal statuses a job can have. */
  lemma SettledJobKinds(s: S.State, j: JobId)
    requires S.Reachable(S.PerTransaction, s) && Terminal(s.db, j)
    ensures s.db.jobs[j].status in {SendStatus.Sent, SendStatus.FailedPermanent, SendStatus.Cancelled}
  {
    var now, acts :| s == S.Run(S.PerTransaction, S.Init(now), acts);
    RunSkipsNone(S.PerTransaction, now, acts);
  }
}
