/** Lease exclusion and fencing over runs of the queue, and exactly when the fence holds. */
module Leases {
  import opened Prelude
  import opened TaskQueue
  import opened Worker
  import opened QueueMachine

  /** The row still belongs to execution i. */
  ghost predicate Current(s: State, i: nat)
    requires i < |s.execs|
  {
    var e := s.execs[i];
    && e.task in s.rows && Holds(s.rows[e.task], e.owner)
    && s.rows[e.task].attempt == e.attempt && s.rows[e.task].leaseUntil == Some(e.lease)
  }

  /** The guard of HEARTBEAT, COMPLETE, RETRY_LATER and KILL rejects execution i. */
  ghost predicate Fenced(s: State, i: nat)
    requires i < |s.execs|
  {
    s.execs[i].task in s.rows && !Holds(s.rows[s.execs[i].task], s.execs[i].owner)
  }

  ghost predicate Leasehold(s: State, i: nat)
    requires i < |s.execs|
  {
    s.execs[i].running ==> Current(s, i) || (Fenced(s, i) && s.execs[i].lease < s.now)
  }

  ghost predicate Exclusive(s: State) {
    forall i :: 0 <= i < |s.execs| ==> Leasehold(s, i)
  }

  /** No owner leases a task that an earlier execution under the same name is still working on. */
  ghost predicate FreshOwner(s: State, a: Action) {
    a.Dequeue? ==> forall i :: 0 <= i < |s.execs| && s.execs[i].running && s.execs[i].task in a.claimed ==>
        s.execs[i].owner != a.owner
  }

  ghost predicate FreshRun(c: Config, s: State, acts: seq<Action>) {
    acts == [] || (FreshRun(c, s, acts[..|acts| - 1]) && FreshOwner(Run(c, s, acts[..|acts| - 1]), acts[|acts| - 1]))
  }

  lemma DequeueExclusive(c: Config, s: State, a: Action)
    requires a.Dequeue? && Accounted(c, s) && Exclusive(s) && FreshOwner(s, a)
    ensures Exclusive(Next(c, s, a))
  {
    var s' := Next(c, s, a);
    if IsSelection(s.rows, a.queue, s.now, a.locked, a.limit, a.claimed) {
      forall i | 0 <= i < |s'.execs| ensures Leasehold(s', i) {
        if i < |s.execs| {
          assert Leasehold(s, i) && ExecOk(s, i);
          assert s.execs[i].task in a.claimed ==> s.execs[i].task in Eligible(s.rows, a.queue, s.now, a.locked);
        } else {
          assert a.claimed[i - |s.execs|] in Eligible(s.rows, a.queue, s.now, a.locked);
        }
      }
    }
  }

  lemma ActExclusive(c: Config, s: State, a: Action)
    requires a.Heartbeat? || a.Crash? || a.Tick?
    requires Accounted(c, s) && Exclusive(s)
    ensures Exclusive(Next(c, s, a))
  {
    var s' := Next(c, s, a);
    forall k | 0 <= k < |s'.execs| ensures Leasehold(s', k) {
      assert Leasehold(s, k);
      if a.Heartbeat? && a.exec < |s.execs| && k != a.exec {
        assert Leasehold(s, a.exec);
      }
    }
  }

  lemma FinishExclusive(c: Config, s: State, a: Action)
    requires a.Finish? && Accounted(c, s) && Exclusive(s)
    ensures Exclusive(Next(c, s, a))
  {
    if Running(s, a.exec) {
      var e := s.execs[a.exec];
      var r := s.rows[e.task];
      FinishRowEffect(c, r, e.owner, r.taskType, e.attempt, a.outcome, s.now, a.draw);
      var r' := FinishRow(c, r, e.owner, r.taskType, e.attempt, a.outcome, s.now, a.draw);
      AfterFinishExclusive(c, s, a.exec, r', Retries(c, r.taskType, e.attempt, a.outcome), a.outcome);
    }
  }

  lemma AfterFinishExclusive(c: Config, s: State, i: nat, r': Task, retry: bool, outcome: Outcome)
    requires Accounted(c, s) && Exclusive(s) && Running(s, i)
    requires Finished(s.rows[s.execs[i].task], r', s.execs[i].owner, retry, outcome)
    ensures Exclusive(AfterFinish(s, i, r', retry))
  {
    var s' := AfterFinish(s, i, r', retry);
    assert Leasehold(s, i);
    forall k | 0 <= k < |s'.execs| ensures Leasehold(s', k) {
      assert Leasehold(s, k);
    }
  }

  lemma TableExclusive(c: Config, s: State, a: Action)
    requires a.Reap? || a.CancelChildren? || a.Enqueue?
    requires Accounted(c, s) && Exclusive(s)
    ensures Exclusive(Next(c, s, a))
  {
    var s' := Next(c, s, a);
    forall k | 0 <= k < |s'.execs| ensures Leasehold(s', k) {
      assert Leasehold(s, k) && ExecOk(s, k);
    }
  }

  lemma NextExclusive(c: Config, s: State, a: Action)
    requires Accounted(c, s) && Exclusive(s) && FreshOwner(s, a)
    ensures Exclusive(Next(c, s, a))
  {
    match a
    case Dequeue(_, _, _, _, _, _) => DequeueExclusive(c, s, a);
    case Finish(_, _, _) => FinishExclusive(c, s, a);
    case Heartbeat(_) => ActExclusive(c, s, a);
    case Crash(_) => ActExclusive(c, s, a);
    case Tick(_) => ActExclusive(c, s, a);
    case Reap => TableExclusive(c, s, a);
    case CancelChildren(_) => TableExclusive(c, s, a);
    case Enqueue(_, _) => TableExclusive(c, s, a);
  }

  lemma {:induction false} RunExclusive(c: Config, now: real, acts: seq<Action>)
    requires FreshRun(c, Init(now), acts)
    ensures Accounted(c, Run(c, Init(now), acts)) && Exclusive(Run(c, Init(now), acts))
  {
    if acts != [] {
      var init := acts[..|acts| - 1];
      RunExclusive(c, now, init);
      NextAccounted(c, Run(c, Init(now), init), acts[|acts| - 1]);
      NextExclusive(c, Run(c, Init(now), init), acts[|acts| - 1]);
    }
  }

  /** At any time at most one unfinished execution of a task has a lease that has not run out. */
  lemma OneLiveLease(c: Config, now: real, acts: seq<Action>, i: nat, j: nat)
    requires FreshRun(c, Init(now), acts)
    requires var s := Run(c, Init(now), acts);
             && i < |s.execs| && j < |s.execs| && s.execs[i].task == s.execs[j].task
             && s.execs[i].running && s.execs[j].running
             && s.execs[i].lease >= s.now && s.execs[j].lease >= s.now
    ensures i == j
  {
    RunExclusive(c, now, acts);
    var s := Run(c, Init(now), acts);
    assert Leasehold(s, i) && Leasehold(s, j);
  }

  /** Once its task has been leased again, an execution can no longer complete, retry, kill or
      heartbeat it: whatever it writes leaves the table as it was. */
  lemma ReleasedIsFenced(c: Config, now: real, acts: seq<Action>, i: nat, outcome: Outcome, draw: real)
    requires FreshRun(c, Init(now), acts)
    requires i < |Run(c, Init(now), acts).execs|
    requires var s := Run(c, Init(now), acts);
             exists j :: i < j < |s.execs| && s.execs[j].task == s.execs[i].task
    ensures var s := Run(c, Init(now), acts);
            && DoHeartbeat(c, s, i).rows == s.rows
            && DoFinish(c, s, i, outcome, draw).rows == s.rows
  {
    RunExclusive(c, now, acts);
    var s := Run(c, Init(now), acts);
    var j :| i < j < |s.execs| && s.execs[j].task == s.execs[i].task;
    assert Leasehold(s, i) && ExecOk(s, j);
    FencedWritesNothing(c, s, i, outcome, draw);
  }

  lemma FencedWritesNothing(c: Config, s: State, i: nat, outcome: Outcome, draw: real)
    requires i < |s.execs| && (s.execs[i].running ==> Fenced(s, i))
    ensures DoHeartbeat(c, s, i).rows == s.rows && DoFinish(c, s, i, outcome, draw).rows == s.rows
  {
    if Running(s, i) {
      var e := s.execs[i];
      FinishRowEffect(c, s.rows[e.task], e.owner, s.rows[e.task].taskType, e.attempt, outcome, s.now, draw);
      assert s.rows == s.rows[e.task := s.rows[e.task]];
    }
  }

  /** The condition on owners is the exact one: a dequeue keeps every earlier unfinished execution of
      the rows it claims fenced off if and only if none of them runs under the claiming owner's name. */
  lemma FenceHoldsIffOwnerFresh(c: Config, s: State, a: Action)
    requires Accounted(c, s) && Exclusive(s)
    requires a.Dequeue? && IsSelection(s.rows, a.queue, s.now, a.locked, a.limit, a.claimed)
    ensures FreshOwner(s, a) <==>
            forall i :: 0 <= i < |s.execs| && s.execs[i].running && s.execs[i].task in a.claimed ==>
                Fenced(Next(c, s, a), i)
  {
    var s' := Next(c, s, a);
    forall i | 0 <= i < |s.execs| && s.execs[i].running && s.execs[i].task in a.claimed
      ensures Fenced(s', i) <==> s.execs[i].owner != a.owner
    {
      assert s.execs[i].task in Eligible(s.rows, a.queue, s.now, a.locked);
      assert s'.execs[i] == s.execs[i];
    }
  }

  // ---- the fence compares owner strings only ----

  const SAME_OWNER_RUN: seq<Action> := [
    Enqueue(0, NewTask("q", "send_email", 7, None, 0.0, None, 0.0)),
    Dequeue("w", "q", 1, 0.0, {}, [0]),
    Tick(31.0),
    Reap,
    Dequeue("w", "q", 1, 0.0, {}, [0])]

  function ReapedTask(): Task {
    ReapRow(LeaseRow(NewTask("q", "send_email", 7, None, 0.0, None, 0.0), "w", 30.0), 31.0)
  }

  lemma SameOwnerLeases(c: Config)
    requires c.leaseSeconds == 30.0
    ensures Run(c, Init(0.0), SAME_OWNER_RUN[..2])
         == State(0.0, map[0 := LeaseRow(SAME_OWNER_RUN[0].task, "w", 30.0)], [Exec(0, "w", 1, 30.0, true)],
             map[], map[])
  {
    var a, s0 := SAME_OWNER_RUN, Init(0.0);
    RunStep(c, s0, a, 0);
    RunStep(c, s0, a, 1);
    var s1 := Next(c, s0, a[0]);
    assert s1.rows == map[0 := a[0].task];
    assert Eligible(s1.rows, "q", 0.0, {}) == {0};
    assert IsSelection(s1.rows, "q", 0.0, {}, 1, [0]);
    var s2 := Next(c, s1, a[1]);
    assert s2.rows == map[0 := LeaseRow(a[0].task, "w", 30.0)];
    assert s2.execs == [Exec(0, "w", 1, 30.0, true)];
  }

  lemma SameOwnerPrefix(c: Config)
    requires c.leaseSeconds == 30.0
    ensures Run(c, Init(0.0), SAME_OWNER_RUN[..4])
         == State(31.0, map[0 := ReapedTask()], [Exec(0, "w", 1, 30.0, true)], map[0 := 1], map[])
  {
    var a, s0 := SAME_OWNER_RUN, Init(0.0);
    SameOwnerLeases(c);
    RunStep(c, s0, a, 2);
    RunStep(c, s0, a, 3);
    ReapsLapsed(Run(c, s0, a[..2]).(now := 31.0));
  }

  lemma ReapsLapsed(s: State)
    requires s.now == 31.0 && s.rows == map[0 := LeaseRow(SAME_OWNER_RUN[0].task, "w", 30.0)] && s.reaps == map[]
    ensures DoReap(s) == s.(rows := map[0 := ReapedTask()], reaps := map[0 := 1])
  {
    assert DoReap(s).rows == map[0 := ReapedTask()] && DoReap(s).reaps == map[0 := 1];
  }

  /** A worker that re-leases its own reaped task defeats the fence: its first, stale execution then
      completes the task its second one is working on. */
  lemma SameOwnerDefeatsFence(c: Config)
    requires c.leaseSeconds == 30.0 && "send_email" in c.handlers
    ensures var s := Run(c, Init(0.0), SAME_OWNER_RUN);
            && |s.execs| == 2 && s.execs[0].running && s.execs[1].running
            && s.execs[0].task == s.execs[1].task == 0 && s.execs[0].lease < s.now <= s.execs[1].lease
            && 0 in s.rows && s.rows[0].status.Leased?
            && 0 in DoFinish(c, s, 0, Returned, 0.0).rows
            && DoFinish(c, s, 0, Returned, 0.0).rows[0].status.Succeeded?
    ensures !FreshRun(c, Init(0.0), SAME_OWNER_RUN)
  {
    var a := SAME_OWNER_RUN;
    SameOwnerPrefix(c);
    var s4 := Run(c, Init(0.0), a[..4]);
    assert a[..|a| - 1] == a[..4];
    assert Eligible(s4.rows, "q", 31.0, {}) == {0};
    assert IsSelection(s4.rows, "q", 31.0, {}, 1, [0]);
    assert s4.execs[0].running && s4.execs[0].task in a[4].claimed && s4.execs[0].owner == a[4].owner;
    assert !FreshOwner(s4, a[4]);
  }
}
