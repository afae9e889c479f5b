/** Every task settles: a bound on what can happen to it, no dead ends, and no retry before its backoff. */
module Termination {
  import opened Prelude
  import opened TaskQueue
  import opened Worker
  import opened QueueMachine

  function StatusWeight(st: TaskStatus): nat {
    match st
    case Pending => 2
    case Leased => 1
    case _ => 0
  }

  /** What a task still has to spend: two status changes for each retry left, plus what its status
      allows; a reap is credited two. */
  function Fuel(c: Config, s: State, t: TaskId): int
    requires t in s.rows
  {
    2 * (MaxRetries(c) - |RetriedBy(s, t)|) + StatusWeight(s.rows[t].status) - 2 * ReapsOf(s, t)
  }

  /** How often a run changes the status of t. */
  ghost function Changes(c: Config, s: State, acts: seq<Action>, t: TaskId): nat {
    if acts == [] then 0
    else
      var u := Run(c, s, acts[..|acts| - 1]);
      var u' := Next(c, u, acts[|acts| - 1]);
      Changes(c, s, acts[..|acts| - 1], t)
        + if t in u.rows && t in u'.rows && u'.rows[t].status != u.rows[t].status then 1 else 0
  }

  ghost predicate Spends(c: Config, s: State, s': State, t: TaskId)
    requires t in s.rows
  {
    && t in s'.rows
    && Fuel(c, s', t) <= Fuel(c, s, t) - (if s'.rows[t].status != s.rows[t].status then 1 else 0)
    && (s.rows[t].status in SETTLED ==> s'.rows[t] == s.rows[t])
  }

  lemma FinishSpends(c: Config, s: State, a: Action, t: TaskId)
    requires a.Finish? && Accounted(c, s) && t in s.rows
    ensures Spends(c, s, Next(c, s, a), t)
  {
    if Running(s, a.exec) {
      var e := s.execs[a.exec];
      var r := s.rows[e.task];
      assert ExecOk(s, a.exec);
      FinishRowEffect(c, r, e.owner, r.taskType, e.attempt, a.outcome, s.now, a.draw);
      AfterFinishSpends(c, s, a.exec, FinishRow(c, r, e.owner, r.taskType, e.attempt, a.outcome, s.now, a.draw),
                        Retries(c, r.taskType, e.attempt, a.outcome), a.outcome, t);
    }
  }

  lemma AfterFinishSpends(c: Config, s: State, i: nat, r': Task, retry: bool, outcome: Outcome, t: TaskId)
    requires Running(s, i) && t in s.rows && s.execs[i].attempt !in RetriedBy(s, s.execs[i].task)
    requires Finished(s.rows[s.execs[i].task], r', s.execs[i].owner, retry, outcome)
    ensures Spends(c, s, AfterFinish(s, i, r', retry), t)
  {
    var s' := AfterFinish(s, i, r', retry);
    var e := s.execs[i];
    if t == e.task && Holds(s.rows[t], e.owner) && retry {
      assert |RetriedBy(s', t)| == |RetriedBy(s, t)| + 1;
    }
  }

  lemma NextSpends(c: Config, s: State, a: Action, t: TaskId)
    requires Accounted(c, s) && t in s.rows
    ensures Spends(c, s, Next(c, s, a), t)
  {
    match a
    case Finish(_, _, _) => FinishSpends(c, s, a, t);
    case Dequeue(_, queue, _, _, locked, claimed) =>
      assert t in Eligible(s.rows, queue, s.now, locked) ==> s.rows[t].status.Pending?;
    case Reap => ReapSpends(c, s, t);
    case CancelChildren(parent) => CancelSpends(c, s, parent, t);
    case Tick(_) =>
    case Enqueue(_, _) =>
    case Heartbeat(_) =>
    case Crash(_) =>
  }

  lemma ReapSpends(c: Config, s: State, t: TaskId)
    requires t in s.rows
    ensures Spends(c, s, DoReap(s), t)
  {
  }

  lemma CancelSpends(c: Config, s: State, parent: nat, t: TaskId)
    requires t in s.rows
    ensures Spends(c, s, s.(rows := TaskQueue.CancelChildren(s.rows, parent)), t)
  {
  }

  lemma {:induction false} RunSpends(c: Config, s: State, acts: seq<Action>, t: TaskId)
    requires Accounted(c, s) && t in s.rows
    ensures t in Run(c, s, acts).rows
    ensures Changes(c, s, acts, t) <= Fuel(c, s, t) - Fuel(c, Run(c, s, acts), t)
    ensures s.rows[t].status in SETTLED ==> Run(c, s, acts).rows[t] == s.rows[t]
  {
    if acts != [] {
      var init := acts[..|acts| - 1];
      RunSpends(c, s, init, t);
      RunAccounted(c, s, init);
      NextSpends(c, Run(c, s, init), acts[|acts| - 1], t);
    }
  }

  /** However the outcomes, crashes and interleavings fall, the status of a task changes at most twice
      per attempt the policy allows and twice per reap. */
  lemma TaskChangesBounded(c: Config, s: State, acts: seq<Action>, t: TaskId)
    requires Reachable(c, s) && t in s.rows
    ensures Changes(c, s, acts, t) <= 2 * (MaxRetries(c) + 1) + 2 * (ReapsOf(Run(c, s, acts), t) - ReapsOf(s, t))
  {
    ReachableAccounted(c, s);
    RunSpends(c, s, acts, t);
    RunAccounted(c, s, acts);
    var u := Run(c, s, acts);
    assert RowOk(c, u, t);
    BelowBound(RetriedBy(u, t), MaxRetries(c) + 1);
  }

  /** The four settled statuses are never left: the whole row is frozen. */
  lemma SettledForever(c: Config, s: State, acts: seq<Action>, t: TaskId)
    requires Reachable(c, s) && t in s.rows && s.rows[t].status in SETTLED
    ensures t in Run(c, s, acts).rows && Run(c, s, acts).rows[t] == s.rows[t]
  {
    ReachableAccounted(c, s);
    RunSpends(c, s, acts, t);
  }

  // ---- no dead ends ----

  /** Every handler call in the run ends the way the adversary decided for that execution. */
  ghost predicate Obeys(acts: seq<Action>, fate: nat -> Outcome) {
    forall k :: 0 <= k < |acts| && acts[k].Finish? ==> acts[k].outcome == fate(acts[k].exec)
  }

  ghost predicate KeepsSettled(s: State, s': State) {
    s'.rows.Keys == s.rows.Keys && forall u :: u in s.rows && s.rows[u].status in SETTLED ==> s'.rows[u] == s.rows[u]
  }

  lemma RunTwo(c: Config, s: State, a: Action, b: Action)
    ensures Run(c, s, [a, b]) == Next(c, Next(c, s, a), b)
  {
    RunStep(c, s, [a, b], 0);
    RunStep(c, s, [a, b], 1);
    assert [a, b][..2] == [a, b];
  }

  /** Wait until its lease is over and its run_after is reached, then reap. */
  lemma FreeTask(c: Config, s: State, t: TaskId) returns (acts: seq<Action>)
    requires t in s.rows && RowOk(c, s, t) && s.rows[t].status !in SETTLED
    ensures forall k :: 0 <= k < |acts| ==> !acts[k].Finish?
    ensures var s' := Run(c, s, acts);
            && KeepsSettled(s, s') && s'.rows[t].status.Pending? && s'.rows[t].runAfter <= s'.now
            && s'.retried == s.retried
  {
    var r := s.rows[t];
    var wait := if r.status.Leased? && r.leaseUntil.value >= s.now then r.leaseUntil.value - s.now + 1.0 else 0.0;
    var due := if r.runAfter > s.now + wait then r.runAfter - s.now else wait;
    acts := [Tick(due), Reap];
    RunTwo(c, s, Tick(due), Reap);
    TickAndReap(c, s, due, t);
  }

  lemma TickAndReap(c: Config, s: State, dt: real, t: TaskId)
    requires t in s.rows && s.rows[t].status !in SETTLED && dt >= 0.0 && s.rows[t].runAfter <= s.now + dt
    requires s.rows[t].status.Leased? ==> s.rows[t].leaseUntil.Some? && s.rows[t].leaseUntil.value < s.now + dt
    ensures var s' := Next(c, Next(c, s, Tick(dt)), Reap);
            && KeepsSettled(s, s') && s'.rows[t].status.Pending? && s'.rows[t].runAfter <= s'.now
            && s'.retried == s.retried
  {
    var s1 := s.(now := s.now + dt);
    assert Next(c, s, Tick(dt)) == s1 && Next(c, s1, Reap) == DoReap(s1);
  }

  lemma LeaseDue(c: Config, s: State, t: TaskId) returns (a: Action, s1: State, i: nat)
    requires Accounted(c, s) && t in s.rows && s.rows[t].status.Pending? && s.rows[t].runAfter <= s.now
    ensures a.Dequeue? && Run(c, s, [a]) == s1 && Accounted(c, s1) && KeepsSettled(s, s1)
    ensures Running(s1, i) && s1.execs[i].task == t && Holds(s1.rows[t], s1.execs[i].owner) && s1.retried == s.retried
  {
    var queue := s.rows[t].queue;
    var claimed := EveryDue(s.rows, queue, s.now);
    assert t in Eligible(s.rows, queue, s.now, {});
    var k :| 0 <= k < |claimed| && claimed[k] == t;
    a, i := Dequeue("drain", queue, |claimed|, 0.0, {}, claimed), |s.execs| + k;
    s1 := DoDequeue(c, s, "drain", queue, |claimed|, 0.0, {}, claimed);
    assert s1.execs[i] == NewExecs(s, claimed, "drain", s.now + c.leaseSeconds)[k];
    RunOne(c, s, a);
    NextAccounted(c, s, a);
    NextKeepsSettled(c, s, a);
  }

  lemma RunOne(c: Config, s: State, a: Action)
    ensures Run(c, s, [a]) == Next(c, s, a)
  {
    RunStep(c, s, [a], 0);
    assert [a][..1] == [a];
  }

  lemma EveryDue(rows: Rows, queue: string, now: real) returns (claimed: seq<TaskId>)
    ensures IsSelection(rows, queue, now, {}, |claimed|, claimed)
    ensures forall t :: t in Eligible(rows, queue, now, {}) ==> t in claimed
  {
    claimed := Enumerate(Eligible(rows, queue, now, {}));
  }

  lemma NextKeepsSettled(c: Config, s: State, a: Action)
    requires Accounted(c, s) && !a.Enqueue?
    ensures KeepsSettled(s, Next(c, s, a))
  {
    var s' := Next(c, s, a);
    forall u | u in s.rows ensures Spends(c, s, s', u) {
      NextSpends(c, s, a, u);
    }
  }

  lemma FinishMovesOn(c: Config, s: State, i: nat, outcome: Outcome, draw: real)
    requires Accounted(c, s) && Running(s, i) && Holds(s.rows[s.execs[i].task], s.execs[i].owner)
    ensures var t, s' := s.execs[i].task, DoFinish(c, s, i, outcome, draw);
            t in s'.rows && (s'.rows[t].status in SETTLED || |RetriedBy(s', t)| == |RetriedBy(s, t)| + 1)
  {
    var e := s.execs[i];
    assert ExecOk(s, i);
    FinishRowEffect(c, s.rows[e.task], e.owner, s.rows[e.task].taskType, e.attempt, outcome, s.now, draw);
  }

  /** One turn of the loop on a task that is due: lease every due row of its queue, run it. */
  lemma LeaseAndRun(c: Config, s: State, t: TaskId, fate: nat -> Outcome, draw: nat -> real) returns (acts: seq<Action>)
    requires Accounted(c, s) && t in s.rows && s.rows[t].status.Pending? && s.rows[t].runAfter <= s.now
    ensures Obeys(acts, fate) && KeepsSettled(s, Run(c, s, acts))
    ensures var s' := Run(c, s, acts);
            s'.rows[t].status in SETTLED || |RetriedBy(s', t)| == |RetriedBy(s, t)| + 1
  {
    var lease, s1, i := LeaseDue(c, s, t);
    var done := FinishAsDecided(c, s, s1, i, fate, draw);
    TwoSteps(c, s, s1, lease, done, t);
    TwoObey(lease, done, fate);
    acts := [lease] + [done];
  }

  lemma TwoObey(a: Action, b: Action, fate: nat -> Outcome)
    requires !a.Finish? && b.Finish? && b.outcome == fate(b.exec)
    ensures Obeys([a] + [b], fate)
  {
  }

  lemma FinishAsDecided(c: Config, s: State, s1: State, i: nat, fate: nat -> Outcome, draw: nat -> real)
    returns (done: Action)
    requires Accounted(c, s1) && Running(s1, i) && Holds(s1.rows[s1.execs[i].task], s1.execs[i].owner)
    requires s1.retried == s.retried
    ensures done.Finish? && done.outcome == fate(done.exec)
    ensures var t, s' := s1.execs[i].task, Run(c, s1, [done]);
            && KeepsSettled(s1, s') && t in s'.rows
            && (s'.rows[t].status in SETTLED || |RetriedBy(s', t)| == |RetriedBy(s, t)| + 1)
  {
    done := Finish(i, fate(i), draw(i));
    FinishLeased(c, s1, i, fate(i), draw(i));
  }

  lemma TwoSteps(c: Config, s: State, s1: State, a: Action, b: Action, t: TaskId)
    requires Run(c, s, [a]) == s1 && KeepsSettled(s, s1) && KeepsSettled(s1, Run(c, s1, [b]))
    requires t in Run(c, s1, [b]).rows
    ensures var s' := Run(c, s, [a] + [b]);
            s' == Run(c, s1, [b]) && KeepsSettled(s, s') && t in s'.rows
  {
    RunConcat(c, s, [a], [b]);
    KeepsSettledAcross(s, s1, Run(c, s1, [b]));
  }

  lemma FinishLeased(c: Config, s: State, i: nat, outcome: Outcome, draw: real)
    requires Accounted(c, s) && Running(s, i) && Holds(s.rows[s.execs[i].task], s.execs[i].owner)
    ensures var t, s' := s.execs[i].task, Run(c, s, [Finish(i, outcome, draw)]);
            && KeepsSettled(s, s') && t in s'.rows
            && (s'.rows[t].status in SETTLED || |RetriedBy(s', t)| == |RetriedBy(s, t)| + 1)
  {
    RunOne(c, s, Finish(i, outcome, draw));
    NextKeepsSettled(c, s, Finish(i, outcome, draw));
    FinishMovesOn(c, s, i, outcome, draw);
  }

  /** However the handler calls end, repeating that turn settles the task: each turn that does not
      spends a retry. */
  lemma {:induction false} SettleOne(c: Config, s: State, t: TaskId, fate: nat -> Outcome, draw: nat -> real)
    returns (acts: seq<Action>)
    requires Accounted(c, s) && t in s.rows
    ensures Obeys(acts, fate) && KeepsSettled(s, Run(c, s, acts)) && Accounted(c, Run(c, s, acts))
    ensures Run(c, s, acts).rows[t].status in SETTLED
    decreases MaxRetries(c) - |RetriedBy(s, t)|
  {
    acts := [];
    if s.rows[t].status !in SETTLED {
      assert RowOk(c, s, t);
      var free := FreeTask(c, s, t);
      var s1 := Run(c, s, free);
      RunAccounted(c, s, free);
      var turn := LeaseAndRun(c, s1, t, fate, draw);
      var s2 := Run(c, s1, turn);
      RunAccounted(c, s1, turn);
      acts := free + turn;
      RunConcat(c, s, free, turn);
      if s2.rows[t].status !in SETTLED {
        assert RowOk(c, s2, t);
        BelowBound(RetriedBy(s2, t), MaxRetries(c) + 1);
        var more := SettleOne(c, s2, t, fate, draw);
        RunConcat(c, s, acts, more);
        acts := acts + more;
      }
    }
  }

  ghost function Unsettled(s: State): set<TaskId> {
    set t | t in s.rows && s.rows[t].status !in SETTLED
  }

  lemma SettledShrinks(s: State, s': State, t: TaskId)
    requires KeepsSettled(s, s') && t in Unsettled(s) && s'.rows[t].status in SETTLED
    ensures |Unsettled(s')| < |Unsettled(s)|
  {
    assert Unsettled(s') <= Unsettled(s) - {t};
    SubsetSize(Unsettled(s'), Unsettled(s) - {t});
  }

  lemma KeepsSettledAcross(a: State, b: State, c: State)
    requires KeepsSettled(a, b) && KeepsSettled(b, c)
    ensures KeepsSettled(a, c)
  {
    assert forall u :: u in a.rows && a.rows[u].status in SETTLED ==> b.rows[u] == a.rows[u];
  }

  /** No dead end: whatever the handlers do, from every accounted state some schedule of claims and runs
      settles every task of the table. That all schedules of the loop do so is DispatchLoopSettles. */
  lemma {:induction false} LoopSettlesEverything(c: Config, s: State, fate: nat -> Outcome, draw: nat -> real)
    returns (acts: seq<Action>)
    requires Accounted(c, s)
    ensures Obeys(acts, fate) && KeepsSettled(s, Run(c, s, acts))
    ensures Unsettled(Run(c, s, acts)) == {}
    decreases |Unsettled(s)|
  {
    acts := [];
    if Unsettled(s) != {} {
      var t :| t in Unsettled(s);
      acts := SettleOne(c, s, t, fate, draw);
      var s' := Run(c, s, acts);
      SettledShrinks(s, s', t);
      var rest := LoopSettlesEverything(c, s', fate, draw);
      RunConcat(c, s, acts, rest);
      KeepsSettledAcross(s, s', Run(c, s', rest));
      acts := acts + rest;
    }
  }

  // ---- backoff ----

  /** t is not leased, and will not be before time x. */
  ghost predicate Waits(s: State, t: TaskId, x: real) {
    && t in s.rows
    && (s.now >= x || s.rows[t].status in SETTLED || (s.rows[t].status.Pending? && s.rows[t].runAfter >= x))
  }

  lemma NextWaits(c: Config, s: State, a: Action, t: TaskId, x: real)
    requires Accounted(c, s) && Waits(s, t, x)
    ensures Waits(Next(c, s, a), t, x)
    ensures s.now < x && t in Next(c, s, a).rows ==> !Next(c, s, a).rows[t].status.Leased?
  {
    NextSpends(c, s, a, t);
    match a
    case Finish(i, outcome, draw) =>
      if Running(s, i) {
        var e := s.execs[i];
        FinishRowEffect(c, s.rows[e.task], e.owner, s.rows[e.task].taskType, e.attempt, outcome, s.now, draw);
      }
    case Dequeue(_, queue, _, _, locked, claimed) =>
      assert t in claimed && t in Eligible(s.rows, queue, s.now, locked) ==> s.rows[t].runAfter <= s.now;
    case Tick(_) =>
    case Enqueue(_, _) =>
    case Heartbeat(_) =>
    case Crash(_) =>
    case Reap =>
    case CancelChildren(_) =>
  }

  lemma {:induction false} RunWaits(c: Config, s: State, acts: seq<Action>, t: TaskId, x: real)
    requires Accounted(c, s) && Waits(s, t, x)
    ensures Waits(Run(c, s, acts), t, x)
  {
    if acts != [] {
      var init := acts[..|acts| - 1];
      RunWaits(c, s, init, t, x);
      RunAccounted(c, s, init);
      NextWaits(c, Run(c, s, init), acts[|acts| - 1], t, x);
    }
  }

  /** A task whose execution rescheduled it is leased by no later statement of any run before the
      delay has passed, and the delay lies between zero and the policy's cap. */
  lemma NoLeaseBeforeBackoff(c: Config, s: State, i: nat, outcome: Outcome, draw: real, acts: seq<Action>, a: Action)
    requires Reachable(c, s) && Running(s, i)
    requires Holds(s.rows[s.execs[i].task], s.execs[i].owner)
    requires Retries(c, s.rows[s.execs[i].task].taskType, s.execs[i].attempt, outcome)
    requires c.policy.initialSeconds >= 0.0 && c.policy.multiplier >= 0.0 && c.policy.maxSeconds >= 0.0 &&
        0.0 <= draw <= 1.0
    ensures var t, delay := s.execs[i].task, c.policy.DelayFor(s.execs[i].attempt, draw);
            var u := Run(c, DoFinish(c, s, i, outcome, draw), acts);
            && 0.0 <= delay <= c.policy.maxSeconds
            && t in u.rows && t in Next(c, u, a).rows
            && (u.now < s.now + delay ==> !Next(c, u, a).rows[t].status.Leased?)
  {
    ReachableAccounted(c, s);
    var t, delay := s.execs[i].task, c.policy.DelayFor(s.execs[i].attempt, draw);
    DelayInRange(c.policy, s.execs[i].attempt, draw);
    var s1 := DoFinish(c, s, i, outcome, draw);
    FinishAccounted(c, s, i, outcome, draw);
    RetriedWaits(c, s, i, outcome, draw);
    RunWaits(c, s1, acts, t, s.now + delay);
    RunAccounted(c, s1, acts);
    NextWaits(c, Run(c, s1, acts), a, t, s.now + delay);
  }

  lemma RetriedWaits(c: Config, s: State, i: nat, outcome: Outcome, draw: real)
    requires Running(s, i) && Holds(s.rows[s.execs[i].task], s.execs[i].owner)
    requires Retries(c, s.rows[s.execs[i].task].taskType, s.execs[i].attempt, outcome)
    ensures Waits(DoFinish(c, s, i, outcome, draw), s.execs[i].task,
        s.now + c.policy.DelayFor(s.execs[i].attempt, draw))
  {
  }
}
