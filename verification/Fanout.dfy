/** services/api/routers/campaigns.py, launch_campaign and cancel_campaign: from recipients to jobs, and
    from jobs to tasks. Rendering is a library's business: a predicate says for which recipients it
    succeeds. Random row ids are a parameter. */
module Fanout {
  import opened Prelude
  import opened Models
  import opened JobStore
  import opened TaskQueue
  import opened Worker
  import opened QueueMachine

  const SEND_QUEUE := "sendrun-send"
  const SEND_TASK := "send_email"

  // ---- step 1: one job per recipient that renders ----

  datatype Recipient = Recipient(email: string, name: Option<string>, fields: map<string, string>)

  function Renderable(recipients: seq<Recipient>, renders: Recipient -> bool): (r: seq<Recipient>)
    ensures |r| <= |recipients|
  {
    if recipients == [] then []
    else
      var last := recipients[|recipients| - 1];
      Renderable(recipients[..|recipients| - 1], renders) + if renders(last) then [last] else []
  }

  /** `chosen` are the recipients that render, all of them, in their order; `at` says where each stood. */
  ghost predicate Chosen(recipients: seq<Recipient>, renders: Recipient -> bool, at: seq<nat>, chosen: seq<Recipient>) {
    && |at| == |chosen|
    && (forall k :: 0 <= k < |at| ==> at[k] < |recipients| && chosen[k] == recipients[at[k]])
    && (forall i, k :: 0 <= i < k < |at| ==> at[i] < at[k])
    && (forall n :: 0 <= n < |recipients| ==> (renders(recipients[n]) <==> n in at))
  }

  lemma ChooseNext(recipients: seq<Recipient>, renders: Recipient -> bool, at: seq<nat>, chosen: seq<Recipient>,
        last: Recipient)
    requires Chosen(recipients, renders, at, chosen)
    ensures var n := |recipients|;
            if renders(last) then Chosen(recipients + [last], renders, at + [n], chosen + [last])
            else Chosen(recipients + [last], renders, at, chosen)
  {
    var n, all := |recipients|, recipients + [last];
    assert forall i :: 0 <= i < n ==> all[i] == recipients[i];
    assert n !in at;
    if renders(last) {
      var more := at + [n];
      assert more[|at|] == n && forall k :: 0 <= k < |at| ==> more[k] == at[k];
    }
  }

  lemma {:induction false} RenderableIsChosen(recipients: seq<Recipient>, renders: Recipient -> bool)
    returns (at: seq<nat>)
    ensures Chosen(recipients, renders, at, Renderable(recipients, renders))
  {
    if recipients == [] {
      at := [];
    } else {
      var init, last := recipients[..|recipients| - 1], recipients[|recipients| - 1];
      at := RenderableIsChosen(init, renders);
      ChooseNext(init, renders, at, Renderable(init, renders), last);
      assert recipients == init + [last] && Renderable(init, renders) + [] == Renderable(init, renders);
      if renders(last) {
        at := at + [|init|];
      }
    }
  }

  /** jobs' is jobs plus one queued job per recipient, under these ids in this order. */
  ghost predicate JobsAdded(jobs: map<JobId, EmailJob>, jobs': map<JobId, EmailJob>, ids: seq<JobId>, campaign: nat,
        to: seq<Recipient>) {
    && |ids| == |to|
    && jobs'.Keys == jobs.Keys + Elements(ids)
    && (forall j :: j in jobs ==> jobs'[j] == jobs[j])
    && (forall k :: 0 <= k < |ids| ==> ids[k] in jobs' && jobs'[ids[k]] == NewJob(campaign, to[k].email))
  }

  ghost predicate FreshIds(ids: seq<nat>, used: set<nat>) {
    (forall k :: 0 <= k < |ids| ==> ids[k] !in used) && forall i, k :: 0 <= i < k < |ids| ==> ids[i] != ids[k]
  }

  lemma AddJob(jobs: map<JobId, EmailJob>, now: map<JobId, EmailJob>, ids: seq<JobId>, campaign: nat,
        to: seq<Recipient>, j: JobId, r: Recipient)
    requires JobsAdded(jobs, now, ids, campaign, to) && j !in now
    ensures JobsAdded(jobs, now[j := NewJob(campaign, r.email)], ids + [j], campaign, to + [r])
  {
    var more := now[j := NewJob(campaign, r.email)];
    assert more.Keys == now.Keys + {j};
    assert Elements(ids + [j]) == Elements(ids) + {j};
    assert forall k :: 0 <= k < |ids| ==> ids[k] in Elements(ids);
  }

  /** The jobs after those of `to` have been inserted under the first of the fresh ids. */
  ghost predicate Inserted(before: map<JobId, EmailJob>, jobs: map<JobId, EmailJob>, ids: seq<JobId>,
        uuids: seq<JobId>, campaign: nat, to: seq<Recipient>) {
    |to| <= |uuids| && ids == uuids[..|to|] && JobsAdded(before, jobs, ids, campaign, to)
  }

  lemma InsertNext(before: map<JobId, EmailJob>, jobs: map<JobId, EmailJob>, ids: seq<JobId>, uuids: seq<JobId>,
        campaign: nat, to: seq<Recipient>, r: Recipient)
    requires Inserted(before, jobs, ids, uuids, campaign, to) && FreshIds(uuids, before.Keys) && |to| < |uuids|
    ensures var j := uuids[|to|];
            Inserted(before, jobs[j := NewJob(campaign, r.email)], ids + [j], uuids, campaign, to + [r])
  {
    var j := uuids[|to|];
    assert j !in Elements(ids) && j !in before;
    assert uuids[..|to| + 1] == uuids[..|to|] + [j];
    AddJob(before, jobs, ids, campaign, to, j, r);
  }

  method InsertJobs(db: Database, campaign: nat, recipients: seq<Recipient>, renders: Recipient -> bool,
        uuids: seq<JobId>)
    returns (jobIds: seq<JobId>)
    requires |uuids| == |recipients| && FreshIds(uuids, db.jobs.Keys)
    modifies db`jobs
    ensures JobsAdded(old(db.jobs), db.jobs, jobIds, campaign, Renderable(recipients, renders))
    ensures forall i, k :: 0 <= i < k < |jobIds| ==> jobIds[i] != jobIds[k]
  {
    jobIds := [];
    ghost var before := db.jobs;
    for n := 0 to |recipients|
      invariant Inserted(before, db.jobs, jobIds, uuids, campaign, Renderable(recipients[..n], renders))
    {
      assert recipients[..n + 1][..n] == recipients[..n];
      ghost var to := Renderable(recipients[..n], renders);
      if renders(recipients[n]) {
        var j := uuids[|jobIds|];
        InsertNext(before, db.jobs, jobIds, uuids, campaign, to, recipients[n]);
        db.jobs := db.jobs[j := NewJob(campaign, recipients[n].email)];
        jobIds := jobIds + [j];
      } else {
        assert to + [] == to;
      }
    }
    assert recipients[..|recipients|] == recipients;
  }

  // ---- step 3: one task per job ----

  function SendTaskFor(job: JobId, now: real): Task {
    NewTask(SEND_QUEUE, SEND_TASK, job, Some(EnqueueKey(job)), now, None, now)
  }

  /** The table after the first n inserts of a pass over the jobs. */
  function Pass(rows: Rows, jobs: seq<JobId>, ids: seq<TaskId>, now: real, n: nat): Rows
    requires n <= |jobs| == |ids|
  {
    if n == 0 then rows else TaskQueue.Enqueue(Pass(rows, jobs, ids, now, n - 1), ids[n - 1],
        SendTaskFor(jobs[n - 1], now))
  }

  /** A row under one of the new ids is the insert for its job. */
  lemma {:induction false} PassRows(rows: Rows, jobs: seq<JobId>, ids: seq<TaskId>, now: real, n: nat, k: nat)
    requires n <= |jobs| == |ids| && k < |ids| && FreshIds(ids, rows.Keys)
    ensures ids[k] in Pass(rows, jobs, ids, now, n) ==>
              k < n && Pass(rows, jobs, ids, now, n)[ids[k]] == SendTaskFor(jobs[k], now)
  {
    if n > 0 {
      PassRows(rows, jobs, ids, now, n - 1, k);
    }
  }

  lemma NextIsFresh(ids: seq<nat>, used: set<nat>, now: set<nat>, n: nat)
    requires FreshIds(ids, used) && n < |ids| && now <= used + Elements(ids[..n])
    ensures ids[n] !in now && now + {ids[n]} <= used + Elements(ids[..n + 1])
  {
    assert ids[..n + 1] == ids[..n] + [ids[n]];
    assert forall x :: x in Elements(ids[..n]) ==> x in Elements(ids[..n + 1]);
  }

  method EnqueueJobs(table: TaskTable, jobs: seq<JobId>, uuids: seq<TaskId>, now: real)
    requires |uuids| == |jobs| && FreshIds(uuids, table.rows.Keys)
    modifies table
    ensures table.rows == Pass(old(table.rows), jobs, uuids, now, |jobs|)
    ensures UniqueKeys(old(table.rows)) ==>
              UniqueKeys(table.rows) && forall k :: 0 <= k < |jobs| ==> |TasksOf(table.rows, jobs[k])| == 1
    ensures forall k :: 0 <= k < |jobs| && uuids[k] in table.rows ==>
              table.rows[uuids[k]] == Task("sendrun-send", "send_email", jobs[k], Some(EnqueueKey(jobs[k])),
                                           TaskStatus.Pending, now, None, None, 0, None, None, now)
  {
    ghost var before := table.rows;
    for n := 0 to |jobs|
      invariant table.rows == Pass(before, jobs, uuids, now, n)
      invariant table.rows.Keys <= before.Keys + Elements(uuids[..n])
    {
      NextIsFresh(uuids, before.Keys, table.rows.Keys, n);
      table.EnqueueTask(uuids[n], SEND_QUEUE, SEND_TASK, jobs[n], Some(EnqueueKey(jobs[n])), None, None, now);
    }
    forall k | 0 <= k < |jobs| && uuids[k] in table.rows ensures table.rows[uuids[k]] == SendTaskFor(jobs[k], now) {
      PassRows(before, jobs, uuids, now, |jobs|, k);
    }
    if UniqueKeys(before) {
      PassCovers(before, jobs, uuids, now, |jobs|);
      PassesAreIdempotent(before, jobs, uuids, now, uuids, now, 0);
    }
  }

  // ---- any number of passes, full or abandoned, among any other steps of the queue ----

  /** The tasks enqueued for a job. */
  ghost function TasksOf(rows: Rows, j: JobId): set<TaskId> {
    set t | t in rows && rows[t].key == Some(EnqueueKey(j))
  }

  ghost predicate RowsKept(a: Rows, b: Rows) {
    forall t :: t in a ==> t in b && SameTask(a[t], b[t])
  }

  /** Rows that are new in b have a key nobody had, or none. */
  ghost predicate KeysKept(a: Rows, b: Rows) {
    && RowsKept(a, b)
    && forall t :: t in b && t !in a && b[t].key.Some? ==> forall u :: u in b && u != t ==> b[u].key != b[t].key
  }

  lemma NextKeepsRows(c: Config, s: State, a: Action)
    ensures KeysKept(s.rows, Next(c, s, a).rows)
  {
    match a
    case Finish(i, outcome, draw) =>
      if Running(s, i) {
        var e := s.execs[i];
        FinishRowEffect(c, s.rows[e.task], e.owner, s.rows[e.task].taskType, e.attempt, outcome, s.now, draw);
      }
    case Enqueue(t, r) =>
      if t !in s.rows {
        EnqueueKeepsRows(s.rows, t, r);
      }
    case Reap => ReapKeepsRows(s);
    case CancelChildren(parent) => CancelKeepsRows(s.rows, parent);
    case _ =>
  }

  lemma ReapKeepsRows(s: State)
    ensures KeysKept(s.rows, DoReap(s).rows)
  {
  }

  lemma CancelKeepsRows(rows: Rows, parent: nat)
    ensures KeysKept(rows, TaskQueue.CancelChildren(rows, parent))
  {
  }

  lemma EnqueueKeepsRows(rows: Rows, t: TaskId, r: Task)
    requires t !in rows
    ensures KeysKept(rows, TaskQueue.Enqueue(rows, t, r))
    ensures r.key.Some? ==> KeyTaken(TaskQueue.Enqueue(rows, t, r), r.key)
  {
    if !KeyTaken(rows, r.key) {
      assert TaskQueue.Enqueue(rows, t, r)[t].key == r.key;
    }
  }

  lemma KeptKeysStayUnique(a: Rows, b: Rows)
    requires UniqueKeys(a) && KeysKept(a, b)
    ensures UniqueKeys(b)
  {
  }

  /** Every run keeps the rows there are and the uniqueness of keys. */
  lemma {:induction false} RunKeepsKeys(c: Config, s: State, acts: seq<Action>)
    requires UniqueKeys(s.rows)
    ensures UniqueKeys(Run(c, s, acts).rows) && RowsKept(s.rows, Run(c, s, acts).rows)
  {
    if acts != [] {
      var init := Run(c, s, acts[..|acts| - 1]);
      RunKeepsKeys(c, s, acts[..|acts| - 1]);
      NextKeepsRows(c, init, acts[|acts| - 1]);
      KeptKeysStayUnique(init.rows, Run(c, s, acts).rows);
    }
  }

  lemma ReachableUniqueKeys(c: Config, s: State)
    requires Reachable(c, s)
    ensures UniqueKeys(s.rows)
  {
    var now, acts :| s == Run(c, Init(now), acts);
    RunKeepsKeys(c, Init(now), acts);
  }

  lemma UniqueMeansOne(rows: Rows, j: JobId)
    requires UniqueKeys(rows)
    ensures |TasksOf(rows, j)| <= 1
    ensures KeyTaken(rows, Some(EnqueueKey(j))) ==> |TasksOf(rows, j)| == 1
  {
    if TasksOf(rows, j) != {} {
      var t :| t in TasksOf(rows, j);
      assert TasksOf(rows, j) == {t};
    }
    assert forall t :: t in rows && rows[t].key == Some(EnqueueKey(j)) ==> t in TasksOf(rows, j);
  }

  /** The n-th step of the run is the insert for job j. */
  ghost predicate Enqueues(c: Config, s: State, acts: seq<Action>, n: nat, j: JobId) {
    && n < |acts| && acts[n].Enqueue? && acts[n].task.key == Some(EnqueueKey(j)) && IsNew(acts[n].task)
    && acts[n].id !in Run(c, s, acts[..n]).rows
  }

  /** However often the launch is driven again, completely or not, and whatever the workers do in
      between: no job ever has two tasks; a job whose insert was once part of the run has exactly one;
      and a task that existed is still there with the same payload and key. */
  lemma FanOutOnce(c: Config, s: State, acts: seq<Action>)
    requires Reachable(c, s)
    ensures forall j :: |TasksOf(Run(c, s, acts).rows, j)| <= 1
    ensures forall n, j :: Enqueues(c, s, acts, n, j) ==> |TasksOf(Run(c, s, acts).rows, j)| == 1
    ensures forall j :: TasksOf(s.rows, j) <= TasksOf(Run(c, s, acts).rows, j)
  {
    ReachableUniqueKeys(c, s);
    RunKeepsKeys(c, s, acts);
    var end := Run(c, s, acts).rows;
    forall j ensures |TasksOf(end, j)| <= 1 {
      UniqueMeansOne(end, j);
    }
    forall n, j | Enqueues(c, s, acts, n, j) ensures |TasksOf(end, j)| == 1 {
      EnqueuedStays(c, s, acts, n, j);
      UniqueMeansOne(end, j);
    }
  }

  lemma EnqueuedStays(c: Config, s: State, acts: seq<Action>, n: nat, j: JobId)
    requires UniqueKeys(s.rows) && Enqueues(c, s, acts, n, j)
    ensures KeyTaken(Run(c, s, acts).rows, Some(EnqueueKey(j)))
  {
    var before := Run(c, s, acts[..n]);
    RunStep(c, s, acts, n);
    EnqueueKeepsRows(before.rows, acts[n].id, acts[n].task);
    RunKeepsKeys(c, s, acts[..n + 1]);
    assert acts == acts[..n + 1] + acts[n + 1..];
    RunConcat(c, s, acts[..n + 1], acts[n + 1..]);
    var mid := Run(c, s, acts[..n + 1]);
    RunKeepsKeys(c, mid, acts[n + 1..]);
    var t :| t in mid.rows && mid.rows[t].key == Some(EnqueueKey(j));
    assert Run(c, s, acts).rows[t].key == Some(EnqueueKey(j));
  }

  // ---- a pass of the endpoint is such a run ----

  function PassActions(jobs: seq<JobId>, ids: seq<TaskId>, now: real, n: nat): (acts: seq<Action>)
    requires n <= |jobs| == |ids|
    ensures |acts| == n
  {
    seq(n, k requires 0 <= k < n => Action.Enqueue(ids[k], SendTaskFor(jobs[k], now)))
  }

  /** The inserts of a pass, however far it got, are steps of the machine. */
  lemma {:induction false} PassIsARun(c: Config, s: State, jobs: seq<JobId>, ids: seq<TaskId>, now: real, n: nat)
    requires n <= |jobs| == |ids| && FreshIds(ids, s.rows.Keys)
    ensures Run(c, s, PassActions(jobs, ids, now, n)) == s.(rows := Pass(s.rows, jobs, ids, now, n))
    ensures forall t :: t in Pass(s.rows, jobs, ids, now, n) ==> t in s.rows || t in ids[..n]
  {
    if n > 0 {
      PassIsARun(c, s, jobs, ids, now, n - 1);
      assert PassActions(jobs, ids, now, n)[..n - 1] == PassActions(jobs, ids, now, n - 1);
      var before := s.(rows := Pass(s.rows, jobs, ids, now, n - 1));
      EnqueueStep(c, before, ids[n - 1], SendTaskFor(jobs[n - 1], now));
    }
  }

  lemma EnqueueStep(c: Config, s: State, t: TaskId, r: Task)
    requires t !in s.rows && IsNew(r)
    ensures Next(c, s, Action.Enqueue(t, r)) == s.(rows := TaskQueue.Enqueue(s.rows, t, r))
  {
  }

  /** Each of them is the insert for its job, on a row id that is fresh when it runs. */
  lemma PassEnqueues(c: Config, s: State, jobs: seq<JobId>, ids: seq<TaskId>, now: real, n: nat, k: nat)
    requires k < n <= |jobs| == |ids| && FreshIds(ids, s.rows.Keys)
    ensures Enqueues(c, s, PassActions(jobs, ids, now, n), k, jobs[k])
  {
    PassIsARun(c, s, jobs, ids, now, k);
    assert PassActions(jobs, ids, now, n)[..k] == PassActions(jobs, ids, now, k);
  }

  /** A committed pass leaves exactly one task for each of its jobs and every older row untouched, and
      driving the launch again, completely or partly, with other row ids and at another time, changes
      nothing at all. */
  lemma PassesAreIdempotent(rows: Rows, jobs: seq<JobId>, ids: seq<TaskId>, now: real, again: seq<TaskId>,
        later: real, n: nat)
    requires UniqueKeys(rows) && |ids| == |jobs| == |again| && n <= |jobs| && FreshIds(ids, rows.Keys)
    ensures var done := Pass(rows, jobs, ids, now, |jobs|);
            && (forall k :: 0 <= k < |jobs| ==> |TasksOf(done, jobs[k])| == 1)
            && (forall t :: t in rows ==> t in done && done[t] == rows[t])
            && Pass(done, jobs, again, later, n) == done
  {
    var done := Pass(rows, jobs, ids, now, |jobs|);
    PassCovers(rows, jobs, ids, now, |jobs|);
    forall k | 0 <= k < |jobs| ensures |TasksOf(done, jobs[k])| == 1 {
      UniqueMeansOne(done, jobs[k]);
    }
    TakenKeysStop(done, jobs, again, later, n);
  }

  /** The table after n inserts: older rows as they were, new ones under the ids used, n keys taken. */
  ghost predicate Covers(rows: Rows, done: Rows, jobs: seq<JobId>, n: nat, used: set<TaskId>)
    requires n <= |jobs|
  {
    && UniqueKeys(done) && done.Keys <= rows.Keys + used
    && (forall t :: t in rows ==> t in done && done[t] == rows[t])
    && (forall k :: 0 <= k < n ==> KeyTaken(done, Some(EnqueueKey(jobs[k]))))
  }

  lemma CoverStep(rows: Rows, before: Rows, jobs: seq<JobId>, n: nat, used: set<TaskId>, t: TaskId, now: real)
    requires n < |jobs| && Covers(rows, before, jobs, n, used) && t !in before
    ensures Covers(rows, TaskQueue.Enqueue(before, t, SendTaskFor(jobs[n], now)), jobs, n + 1, used + {t})
  {
    InsertKeepsKeys(before, t, SendTaskFor(jobs[n], now));
  }

  lemma {:induction false} PassCovers(rows: Rows, jobs: seq<JobId>, ids: seq<TaskId>, now: real, n: nat)
    requires UniqueKeys(rows) && n <= |jobs| == |ids| && FreshIds(ids, rows.Keys)
    ensures Covers(rows, Pass(rows, jobs, ids, now, n), jobs, n, Elements(ids[..n]))
  {
    if n > 0 {
      PassCovers(rows, jobs, ids, now, n - 1);
      var before := Pass(rows, jobs, ids, now, n - 1);
      NextIsFresh(ids, rows.Keys, before.Keys, n - 1);
      ElementsStep(ids, n - 1);
      CoverStep(rows, before, jobs, n - 1, Elements(ids[..n - 1]), ids[n - 1], now);
    }
  }

  lemma ElementsStep(ids: seq<TaskId>, n: nat)
    requires n < |ids|
    ensures Elements(ids[..n + 1]) == Elements(ids[..n]) + {ids[n]}
  {
    assert ids[..n + 1] == ids[..n] + [ids[n]];
  }

  lemma InsertKeepsKeys(rows: Rows, t: TaskId, r: Task)
    requires UniqueKeys(rows) && t !in rows && r.key.Some?
    ensures var more := TaskQueue.Enqueue(rows, t, r);
            && UniqueKeys(more) && KeyTaken(more, r.key)
            && (forall u :: u in more ==> u in rows || u == t)
            && (forall u :: u in rows ==> u in more && more[u] == rows[u])
            && (forall key :: KeyTaken(rows, key) ==> KeyTaken(more, key))
  {
    EnqueueKeepsRows(rows, t, r);
    var more := TaskQueue.Enqueue(rows, t, r);
    KeptKeysStayUnique(rows, more);
    forall key | KeyTaken(rows, key) ensures KeyTaken(more, key) {
      var u :| u in rows && rows[u].key == key;
      assert u in more && more[u].key == key;
    }
  }

  lemma {:induction false} TakenKeysStop(rows: Rows, jobs: seq<JobId>, ids: seq<TaskId>, now: real, n: nat)
    requires n <= |jobs| == |ids| && forall k :: 0 <= k < |jobs| ==> KeyTaken(rows, Some(EnqueueKey(jobs[k])))
    ensures Pass(rows, jobs, ids, now, n) == rows
  {
    if n > 0 {
      TakenKeysStop(rows, jobs, ids, now, n - 1);
    }
  }

  /** Launches are the only callers of enqueue_task. */
  ghost predicate LaunchesOnly(acts: seq<Action>) {
    forall n :: 0 <= n < |acts| && acts[n].Enqueue? ==> acts[n].task.key == Some(EnqueueKey(acts[n].task.payload))
  }

  ghost predicate KeysNameJobs(rows: Rows) {
    forall t :: t in rows ==> rows[t].key == Some(EnqueueKey(rows[t].payload))
  }

  lemma {:induction false} RunNamesJobs(c: Config, now: real, acts: seq<Action>)
    requires LaunchesOnly(acts)
    ensures KeysNameJobs(Run(c, Init(now), acts).rows)
  {
    if acts != [] {
      var init, a := acts[..|acts| - 1], acts[|acts| - 1];
      RunNamesJobs(c, now, init);
      var before := Run(c, Init(now), init);
      NextKeepsRows(c, before, a);
      NewRowsAreEnqueued(c, before, a);
      var after := Next(c, before, a).rows;
      forall t | t in after ensures after[t].key == Some(EnqueueKey(after[t].payload)) {
        assert t in before.rows ==> SameTask(before.rows[t], after[t]);
      }
    }
  }

  lemma NewRowsAreEnqueued(c: Config, s: State, a: Action)
    ensures forall t :: t in Next(c, s, a).rows && t !in s.rows ==> a.Enqueue? && Next(c, s, a).rows[t] == a.task
  {
  }

  /** When tasks come from launches alone, no two tasks ever carry the same job. */
  lemma OneTaskPerJob(c: Config, now: real, acts: seq<Action>)
    requires LaunchesOnly(acts)
    ensures var rows := Run(c, Init(now), acts).rows;
            forall t, u :: t in rows && u in rows && rows[t].payload == rows[u].payload ==> t == u
  {
    RunNamesJobs(c, now, acts);
    RunKeepsKeys(c, Init(now), acts);
  }

  /** A pass of the endpoint, at any point of any run and with anything before and after it: each of its
      jobs has exactly one task in the end. */
  lemma PassFansOutOnce(c: Config, s: State, before: seq<Action>, jobs: seq<JobId>, ids: seq<TaskId>, now: real,
        after: seq<Action>)
    requires Reachable(c, s) && |ids| == |jobs| && FreshIds(ids, Run(c, s, before).rows.Keys)
    ensures var rows := Run(c, s, before + PassActions(jobs, ids, now, |jobs|) + after).rows;
            forall k :: 0 <= k < |jobs| ==> |TasksOf(rows, jobs[k])| == 1
  {
    var pass := PassActions(jobs, ids, now, |jobs|);
    var u := Run(c, s, before);
    ReachableUniqueKeys(c, s);
    RunKeepsKeys(c, s, before);
    RunConcat(c, s, before, pass + after);
    assert before + pass + after == before + (pass + after);
    forall k | 0 <= k < |jobs| ensures |TasksOf(Run(c, u, pass + after).rows, jobs[k])| == 1 {
      PassEnqueues(c, u, jobs, ids, now, |jobs|, k);
      assert (pass + after)[..k] == pass[..k];
      assert Enqueues(c, u, pass + after, k, jobs[k]);
      EnqueuedStays(c, u, pass + after, k, jobs[k]);
      RunKeepsKeys(c, u, pass + after);
      UniqueMeansOne(Run(c, u, pass + after).rows, jobs[k]);
    }
  }
}
