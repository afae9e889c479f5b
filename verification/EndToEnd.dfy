/** From launch to the last settled task: services/api/routers/campaigns.py enqueues, and
    packages/durable/worker.py dispatches until nothing is left. */
module EndToEnd {
  import opened Prelude
  import opened Transitions
  import opened Models
  import opened TaskQueue
  import opened Worker
  import opened Fanout
  import opened Settling
  import Q = QueueMachine
  import S = SendMachine
  import opened SendTheorems
  import P = Pipeline

  // ---- what the queue sees of a run of the pipeline ----

  ghost function Go(c: Config, w: P.World, acts: seq<P.Action>): P.World {
    P.Run(c, S.PerTransaction, w, acts)
  }

  ghost function Trace(c: Config, w: P.World, acts: seq<P.Action>): seq<Q.Action> {
    if acts == [] then []
    else
      Trace(c, w, acts[..|acts| - 1]) + P.QueueActs(c, Go(c, w, acts[..|acts| - 1]), acts[|acts| - 1])
  }

  lemma {:induction false} TraceIsQueueRun(c: Config, w: P.World, acts: seq<P.Action>)
    ensures Go(c, w, acts).q == Q.Run(c, w.q, Trace(c, w, acts))
  {
    if acts != [] {
      var init := acts[..|acts| - 1];
      TraceIsQueueRun(c, w, init);
      Q.RunConcat(c, w.q, Trace(c, w, init), P.QueueActs(c, Go(c, w, init), acts[|acts| - 1]));
    }
  }

  lemma {:induction false} GoConcat(c: Config, w: P.World, a: seq<P.Action>, b: seq<P.Action>)
    ensures Go(c, w, a + b) == Go(c, Go(c, w, a), b)
  {
    if b == [] {
      assert a + b == a;
    } else {
      var init := b[..|b| - 1];
      assert (a + b)[..|a + b| - 1] == a + init;
      GoConcat(c, w, a, init);
    }
  }

  lemma {:induction false} TraceConcat(c: Config, w: P.World, a: seq<P.Action>, b: seq<P.Action>)
    ensures Trace(c, w, a + b) == Trace(c, w, a) + Trace(c, Go(c, w, a), b)
  {
    if b == [] {
      assert a + b == a;
    } else {
      var init, last := b[..|b| - 1], b[|b| - 1];
      assert (a + b)[..|a + b| - 1] == a + init && (a + b)[|a + b| - 1] == last;
      TraceConcat(c, w, a, init);
      GoConcat(c, w, a, init);
      Associates(Trace(c, w, a), Trace(c, Go(c, w, a), init), P.QueueActs(c, Go(c, w, a + init), last));
    }
  }

  lemma Associates<A>(a: seq<A>, b: seq<A>, d: seq<A>)
    ensures (a + b) + d == a + (b + d)
  {
  }

  /** The inserts of a launch as actions of the pipeline. */
  function Launch(jobs: seq<JobId>, ids: seq<TaskId>, now: real, n: nat): seq<P.Action>
    requires n <= |jobs| == |ids|
  {
    seq(n, k requires 0 <= k < n => P.Queue(Q.Enqueue(ids[k], SendTaskFor(jobs[k], now))))
  }

  lemma {:induction false} LaunchIsAPass(c: Config, w: P.World, jobs: seq<JobId>, ids: seq<TaskId>, now: real, n: nat)
    requires n <= |jobs| == |ids|
    ensures Trace(c, w, Launch(jobs, ids, now, n)) == PassActions(jobs, ids, now, n)
  {
    if n > 0 {
      LaunchIsAPass(c, w, jobs, ids, now, n - 1);
      assert Launch(jobs, ids, now, n)[..n - 1] == Launch(jobs, ids, now, n - 1);
    }
  }

  /** The turns of the dispatch loop as the queue sees them. */
  ghost function QueueTurns(c: Config, w: P.World, turns: seq<seq<P.Action>>): seq<seq<Q.Action>> {
    if turns == [] then []
    else
      var init := turns[..|turns| - 1];
      QueueTurns(c, w, init) + [Trace(c, Go(c, w, Flat(init)), turns[|turns| - 1])]
  }

  lemma {:induction false} QueueTurnsFlat(c: Config, w: P.World, turns: seq<seq<P.Action>>)
    ensures |QueueTurns(c, w, turns)| == |turns|
    ensures Flat(QueueTurns(c, w, turns)) == Trace(c, w, Flat(turns))
  {
    if turns != [] {
      var init := turns[..|turns| - 1];
      QueueTurnsFlat(c, w, init);
      TraceConcat(c, w, Flat(init), turns[|turns| - 1]);
      var all := QueueTurns(c, w, turns);
      assert all[..|all| - 1] == QueueTurns(c, w, init);
    }
  }

  lemma GoReaches(c: Config, w: P.World, acts: seq<P.Action>)
    requires P.Reachable(c, S.PerTransaction, w)
    ensures P.Reachable(c, S.PerTransaction, Go(c, w, acts)) && Q.Reachable(c, Go(c, w, acts).q)
  {
    var now, before :| w == P.Run(c, S.PerTransaction, P.Init(now), before);
    GoConcat(c, P.Init(now), before, acts);
    P.RunProjects(c, S.PerTransaction, now, before + acts);
  }

  lemma {:induction false} JobsStay(c: Config, w: P.World, acts: seq<P.Action>, j: JobId)
    requires j in w.s.db.jobs
    ensures j in Go(c, w, acts).s.db.jobs
  {
    if acts != [] {
      var init := acts[..|acts| - 1];
      JobsStay(c, w, init, j);
      RunGrows(S.PerTransaction, Go(c, w, init).s, P.SendActs(c, Go(c, w, init), acts[|acts| - 1]));
    }
  }

  // ---- the tasks are those of launches ----

  ghost predicate IsSendTask(r: Task) {
    r.queue == SEND_QUEUE && r.key == Some(EnqueueKey(r.payload))
  }

  /** Launches are the only callers of enqueue_task. */
  ghost predicate OnlyLaunches(acts: seq<Q.Action>) {
    forall n :: 0 <= n < |acts| && acts[n].Enqueue? ==> IsSendTask(acts[n].task)
  }

  lemma {:induction false} TasksAreSends(c: Config, s: Q.State, acts: seq<Q.Action>)
    requires OnlyLaunches(acts) && forall t :: t in s.rows ==> IsSendTask(s.rows[t])
    ensures forall t :: t in Q.Run(c, s, acts).rows ==> IsSendTask(Q.Run(c, s, acts).rows[t])
  {
    if acts != [] {
      var init, a := acts[..|acts| - 1], acts[|acts| - 1];
      TasksAreSends(c, s, init);
      var before := Q.Run(c, s, init);
      NextKeepsRows(c, before, a);
      NewRowsAreEnqueued(c, before, a);
      var after := Q.Next(c, before, a).rows;
      forall t | t in after ensures IsSendTask(after[t]) {
        assert t in before.rows ==> SameTask(before.rows[t], after[t]);
      }
    }
  }

  // ---- every launched job ----

  /** Job j has one task, it is settled, and the outcome is on record: the message is out once, under the
      id and at the time the job shows; or it never went out and the job has failed for good; or the job
      was cancelled; or the task stands in the table as a dead letter or cancelled. */
  ghost predicate AccountedFor(w: P.World, j: JobId, t: TaskId) {
    && j in w.s.db.jobs && TasksOf(w.q.rows, j) == {t} && t in w.q.rows && w.q.rows[t].payload == j
    && w.q.rows[t].status in SETTLED
    && w.s.provider.providerSends == |w.s.provider.cache|
    && var r, cache := w.s.db.jobs[j], w.s.provider.cache;
       || (r.status == SendStatus.Sent && j in cache && r.mid == Some(cache[j].mid) && r.sentAt == Some(cache[j].at))
       || (r.status == SendStatus.FailedPermanent && j !in cache)
       || r.status == SendStatus.Cancelled
       || w.q.rows[t].status.Dead? || w.q.rows[t].status.Cancelled?
  }

  lemma SettledIsAccountedFor(c: Config, w: P.World, j: JobId, t: TaskId)
    requires P.Reachable(c, S.PerTransaction, w) && j in w.s.db.jobs
    requires TasksOf(w.q.rows, j) == {t} && t in w.q.rows && w.q.rows[t].payload == j && w.q.rows[t].status in SETTLED
    ensures AccountedFor(w, j, t)
  {
    P.NothingLostNothingTwice(c, w, t);
    P.AcceptedNeverLost(c, w, t);
  }

  /** The task a launch leaves for one of its jobs, among whatever tasks there were. */
  lemma LaunchedTask(c: Config, s: Q.State, jobs: seq<JobId>, ids: seq<TaskId>, launch: real, k: nat)
    returns (t: TaskId)
    requires Q.Reachable(c, s) && (forall u :: u in s.rows ==> IsSendTask(s.rows[u]))
    requires |ids| == |jobs| && FreshIds(ids, s.rows.Keys) && k < |jobs|
    ensures var rows := Q.Run(c, s, PassActions(jobs, ids, launch, |jobs|)).rows;
            TasksOf(rows, jobs[k]) == {t} && t in rows && IsSendTask(rows[t]) && rows[t].payload == jobs[k]
  {
    var pass := PassActions(jobs, ids, launch, |jobs|);
    assert [] + pass + [] == pass;
    PassFansOutOnce(c, s, [], jobs, ids, launch, []);
    TasksAreSends(c, s, pass);
    t := OnlyOne(TasksOf(Q.Run(c, s, pass).rows, jobs[k]));
    assert t in TasksOf(Q.Run(c, s, pass).rows, jobs[k]);
  }

  lemma OnlyOne(ts: set<TaskId>) returns (t: TaskId)
    requires |ts| == 1
    ensures ts == {t}
  {
    t :| t in ts;
    assert |ts - {t}| == 0;
    assert ts == {t} + (ts - {t});
  }

  /** It is still the only one after any further run. */
  lemma StaysTheTask(c: Config, s: Q.State, acts: seq<Q.Action>, j: JobId, t: TaskId)
    requires Q.Reachable(c, s) && TasksOf(s.rows, j) == {t} && t in s.rows
    ensures var rows := Q.Run(c, s, acts).rows;
            TasksOf(rows, j) == {t} && t in rows && SameTask(s.rows[t], rows[t])
  {
    FanOutOnce(c, s, acts);
    ReachableUniqueKeys(c, s);
    RunKeepsKeys(c, s, acts);
    var rows := Q.Run(c, s, acts).rows;
    assert t in TasksOf(s.rows, j);
    assert t in TasksOf(rows, j) && |TasksOf(rows, j)| <= 1;
    var u := OnlyOne(TasksOf(rows, j));
  }

  lemma TaskAfterLaunch(c: Config, now: real, before: seq<P.Action>, jobs: seq<JobId>, ids: seq<TaskId>, launch: real,
        k: nat)
    returns (t: TaskId)
    requires OnlyLaunches(Trace(c, P.Init(now), before)) && |ids| == |jobs| && k < |jobs|
    requires FreshIds(ids, Go(c, P.Init(now), before).q.rows.Keys)
    ensures var w1 := Go(c, Go(c, P.Init(now), before), Launch(jobs, ids, launch, |jobs|));
            && P.Reachable(c, S.PerTransaction, w1) && Q.Reachable(c, w1.q)
            && TasksOf(w1.q.rows, jobs[k]) == {t} && t in w1.q.rows
            && w1.q.rows[t].queue == SEND_QUEUE && w1.q.rows[t].payload == jobs[k]
  {
    var w0 := Go(c, P.Init(now), before);
    var pass := Launch(jobs, ids, launch, |jobs|);
    assert P.Init(now) == Go(c, P.Init(now), []);
    GoReaches(c, P.Init(now), before);
    GoReaches(c, w0, pass);
    TraceIsQueueRun(c, P.Init(now), before);
    TasksAreSends(c, Q.Init(now), Trace(c, P.Init(now), before));
    TraceIsQueueRun(c, w0, pass);
    LaunchIsAPass(c, w0, jobs, ids, launch, |jobs|);
    t := LaunchedTask(c, w0.q, jobs, ids, launch, k);
  }

  lemma TurnsSettle(c: Config, w1: P.World, turns: seq<seq<P.Action>>, ts: seq<TaskId>, r: nat, t: TaskId)
    requires Q.Reachable(c, w1.q) && t in w1.q.rows && w1.q.rows[t].queue == SEND_QUEUE
    requires ListsQueue(w1.q, ts, SEND_QUEUE) && DispatchTurns(c, w1.q, QueueTurns(c, w1, turns), SEND_QUEUE)
    requires TotalReaps(Go(c, w1, Flat(turns)).q, ts) - TotalReaps(w1.q, ts) <= r
    requires |turns| > 2 * (Q.MaxRetries(c) + 1) * |ts| + 2 * r
    ensures var rows := Go(c, w1, Flat(turns)).q.rows; t in rows && rows[t].status in SETTLED
  {
    QueueTurnsFlat(c, w1, turns);
    TraceIsQueueRun(c, w1, Flat(turns));
    DispatchLoopSettles(c, w1.q, QueueTurns(c, w1, turns), SEND_QUEUE, ts, r);
    assert t in ts;
  }

  lemma TurnsAccountFor(c: Config, w1: P.World, turns: seq<seq<P.Action>>, ts: seq<TaskId>, r: nat, j: JobId,
        t: TaskId)
    requires P.Reachable(c, S.PerTransaction, w1) && Q.Reachable(c, w1.q) && j in w1.s.db.jobs
    requires TasksOf(w1.q.rows, j) == {t} && t in w1.q.rows
    requires w1.q.rows[t].queue == SEND_QUEUE && w1.q.rows[t].payload == j
    requires ListsQueue(w1.q, ts, SEND_QUEUE) && DispatchTurns(c, w1.q, QueueTurns(c, w1, turns), SEND_QUEUE)
    requires TotalReaps(Go(c, w1, Flat(turns)).q, ts) - TotalReaps(w1.q, ts) <= r
    requires |turns| > 2 * (Q.MaxRetries(c) + 1) * |ts| + 2 * r
    ensures AccountedFor(Go(c, w1, Flat(turns)), j, t)
  {
    var w2 := Go(c, w1, Flat(turns));
    TurnsSettle(c, w1, turns, ts, r, t);
    TraceIsQueueRun(c, w1, Flat(turns));
    StaysTheTask(c, w1.q, Trace(c, w1, Flat(turns)), j, t);
    JobsStay(c, w1, Flat(turns), j);
    GoReaches(c, w1, Flat(turns));
    SettledIsAccountedFor(c, w2, j, t);
  }

  /** End to end: after any run of the pipeline in which only launches enqueue, launch these jobs, and let
      the dispatch loop turn, with handlers that answer anything, executions that crash, hang, time out or
      are overtaken, webhooks, sweeps and cancellations in between. If the tasks of the queue are reaped
      at most r times, then after more turns than policy and reaps pay for, every launched job is
      accounted for. */
  lemma LaunchedJobsEndAccountedFor(c: Config, now: real, before: seq<P.Action>, jobs: seq<JobId>, ids: seq<TaskId>,
        launch: real, turns: seq<seq<P.Action>>, ts: seq<TaskId>, r: nat, k: nat)
    returns (t: TaskId)
    requires OnlyLaunches(Trace(c, P.Init(now), before))
    requires var w0 := Go(c, P.Init(now), before);
             |ids| == |jobs| && FreshIds(ids, w0.q.rows.Keys) && k < |jobs| && jobs[k] in w0.s.db.jobs
    requires var w1 := Go(c, Go(c, P.Init(now), before), Launch(jobs, ids, launch, |jobs|));
             var w2 := Go(c, w1, Flat(turns));
             && ListsQueue(w1.q, ts, SEND_QUEUE) && DispatchTurns(c, w1.q, QueueTurns(c, w1, turns), SEND_QUEUE)
             && TotalReaps(w2.q, ts) - TotalReaps(w1.q, ts) <= r
             && |turns| > 2 * (Q.MaxRetries(c) + 1) * |ts| + 2 * r
    ensures AccountedFor(Go(c, P.Init(now), before + Launch(jobs, ids, launch, |jobs|) + Flat(turns)), jobs[k], t)
  {
    var pass := Launch(jobs, ids, launch, |jobs|);
    GoConcat(c, P.Init(now), before, pass);
    GoConcat(c, P.Init(now), before + pass, Flat(turns));
    t := TaskAfterLaunch(c, now, before, jobs, ids, launch, k);
    JobsStay(c, Go(c, P.Init(now), before), pass, jobs[k]);
    TurnsAccountFor(c, Go(c, Go(c, P.Init(now), before), pass), turns, ts, r, jobs[k], t);
  }
}
