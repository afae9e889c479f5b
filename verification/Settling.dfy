/** packages/durable/worker.py, the dispatch and reap loops over any schedule: however claimed tasks end,
    crash or are finished by stale executions, a loop that keeps turning settles all of its tasks. */
module Settling {
  import opened Prelude
  import opened TaskQueue
  import opened Worker
  import opened QueueMachine
  import opened Termination
  import Fanout

  // ---- sums over the tasks of a table ----

  function Sum(ts: seq<TaskId>, f: TaskId -> int): int {
    if ts == [] then 0 else Sum(ts[..|ts| - 1], f) + f(ts[|ts| - 1])
  }

  lemma {:induction false} SumLess(ts: seq<TaskId>, f: TaskId -> int, h: TaskId -> int)
    requires forall t :: t in ts ==> f(t) <= h(t)
    ensures Sum(ts, f) <= Sum(ts, h)
    ensures (exists t :: t in ts && f(t) < h(t)) ==> Sum(ts, f) < Sum(ts, h)
  {
    if ts != [] {
      var init, last := ts[..|ts| - 1], ts[|ts| - 1];
      assert ts == init + [last];
      SumLess(init, f, h);
    }
  }

  lemma {:induction false} SumBelow(ts: seq<TaskId>, f: TaskId -> int, c: int)
    requires forall t :: t in ts ==> f(t) <= c
    ensures Sum(ts, f) <= c * |ts|
  {
    if ts != [] {
      SumBelow(ts[..|ts| - 1], f, c);
    }
  }

  lemma {:induction false} SumOfSum(ts: seq<TaskId>, f: TaskId -> int, h: TaskId -> int, both: TaskId -> int, a: int)
    requires forall t :: t in ts ==> both(t) == f(t) + a * h(t)
    ensures Sum(ts, both) == Sum(ts, f) + a * Sum(ts, h)
  {
    if ts != [] {
      var last := ts[|ts| - 1];
      SumOfSum(ts[..|ts| - 1], f, h, both, a);
      assert a * (Sum(ts[..|ts| - 1], h) + h(last)) == a * Sum(ts[..|ts| - 1], h) + a * h(last);
    }
  }

  // ---- turns ----

  ghost predicate Known(s: State, ts: seq<TaskId>) {
    forall t :: t in ts ==> t in s.rows
  }

  ghost predicate AllSettled(s: State, ts: seq<TaskId>)
    requires Known(s, ts)
  {
    forall t :: t in ts ==> s.rows[t].status in SETTLED
  }

  /** What all of ts still have to spend. */
  ghost function TotalFuel(c: Config, s: State, ts: seq<TaskId>): int {
    Sum(ts, (t: TaskId) => if t in s.rows then Fuel(c, s, t) else 0)
  }

  /** How many reaps the tasks of ts have had. */
  function TotalReaps(s: State, ts: seq<TaskId>): int {
    Sum(ts, (t: TaskId) => ReapsOf(s, t))
  }

  function Flat<A>(turns: seq<seq<A>>): seq<A> {
    if turns == [] then [] else Flat(turns[..|turns| - 1]) + turns[|turns| - 1]
  }

  /** In the course of this turn the status of some task of ts changes. */
  ghost predicate Moves(c: Config, s: State, turn: seq<Action>, ts: seq<TaskId>) {
    exists t :: t in ts && Changes(c, s, turn, t) > 0
  }

  /** Every turn changes the status of one of ts at least, unless all are settled by then. */
  ghost predicate KeepsMoving(c: Config, s: State, turns: seq<seq<Action>>, ts: seq<TaskId>) {
    forall n :: 0 <= n < |turns| ==>
      var u := Run(c, s, Flat(turns[..n]));
      Known(u, ts) && (AllSettled(u, ts) || Moves(c, u, turns[n], ts))
  }

  lemma TurnSpends(c: Config, s: State, turn: seq<Action>, ts: seq<TaskId>)
    requires Accounted(c, s) && Known(s, ts)
    ensures Known(Run(c, s, turn), ts)
    ensures TotalFuel(c, Run(c, s, turn), ts) <= TotalFuel(c, s, ts)
    ensures Moves(c, s, turn, ts) ==> TotalFuel(c, Run(c, s, turn), ts) < TotalFuel(c, s, ts)
    ensures AllSettled(s, ts) ==> AllSettled(Run(c, s, turn), ts)
  {
    var s' := Run(c, s, turn);
    forall t | t in ts
      ensures t in s'.rows && Changes(c, s, turn, t) <= Fuel(c, s, t) - Fuel(c, s', t)
      ensures s.rows[t].status in SETTLED ==> s'.rows[t] == s.rows[t]
    {
      RunSpends(c, s, turn, t);
    }
    SumLess(ts, (t: TaskId) => if t in s'.rows then Fuel(c, s', t) else 0,
            (t: TaskId) => if t in s.rows then Fuel(c, s, t) else 0);
  }

  lemma FlatStep(c: Config, s: State, turns: seq<seq<Action>>, n: nat)
    requires n < |turns|
    ensures Run(c, s, Flat(turns[..n + 1])) == Run(c, Run(c, s, Flat(turns[..n])), turns[n])
    ensures Flat(turns[..0]) == [] && turns[..|turns|] == turns
  {
    assert turns[..n + 1][..n] == turns[..n];
    RunConcat(c, s, Flat(turns[..n]), turns[n]);
  }

  /** Fuel goes down turn by turn until everything is settled. */
  lemma {:induction false} TurnsSpend(c: Config, s: State, turns: seq<seq<Action>>, ts: seq<TaskId>, n: nat)
    requires Accounted(c, s) && Known(s, ts) && KeepsMoving(c, s, turns, ts) && n <= |turns|
    ensures var u := Run(c, s, Flat(turns[..n]));
            && Accounted(c, u) && Known(u, ts)
            && (AllSettled(u, ts) || TotalFuel(c, u, ts) <= TotalFuel(c, s, ts) - n)
  {
    if n == 0 {
      assert Flat(turns[..0]) == [];
    } else {
      TurnsSpend(c, s, turns, ts, n - 1);
      FlatStep(c, s, turns, n - 1);
      var u := Run(c, s, Flat(turns[..n - 1]));
      TurnSpends(c, u, turns[n - 1], ts);
      RunAccounted(c, u, turns[n - 1]);
    }
  }

  lemma FuelBounds(c: Config, s: State, t: TaskId)
    requires Accounted(c, s) && t in s.rows
    ensures -2 * ReapsOf(s, t) <= Fuel(c, s, t) <= 2 * (MaxRetries(c) + 1) - 2 * ReapsOf(s, t)
  {
    assert RowOk(c, s, t);
    BelowBound(RetriedBy(s, t), MaxRetries(c) + 1);
  }

  lemma TotalFuelBounds(c: Config, s: State, ts: seq<TaskId>)
    requires Accounted(c, s) && Known(s, ts)
    ensures -2 * TotalReaps(s, ts) <= TotalFuel(c, s, ts) <= 2 * (MaxRetries(c) + 1) * |ts| - 2 * TotalReaps(s, ts)
  {
    var fuel := (t: TaskId) => if t in s.rows then Fuel(c, s, t) else 0;
    var reaps := (t: TaskId) => ReapsOf(s, t);
    var rest := (t: TaskId) => fuel(t) + 2 * reaps(t);
    forall t | t in ts ensures 0 <= rest(t) <= 2 * (MaxRetries(c) + 1) {
      FuelBounds(c, s, t);
    }
    SumBelow(ts, rest, 2 * (MaxRetries(c) + 1));
    SumOfSum(ts, fuel, reaps, rest, 2);
    SumLess(ts, t => 0, rest);
    SumBelow(ts, t => 0, 0);
    SumZero(ts);
  }

  lemma {:induction false} SumZero(ts: seq<TaskId>)
    ensures Sum(ts, t => 0) == 0
  {
    if ts != [] {
      SumZero(ts[..|ts| - 1]);
    }
  }

  /** Termination of every loop: cut any run from a reachable state into turns, each of which changes the
      status of a task of ts unless all are settled. Whatever the handlers do and whoever crashes, if the
      run applies at most r reaps to ts and has more turns than the policy and the reaps pay for, every
      task of ts is settled in the end. */
  lemma EveryLoopSettles(c: Config, s: State, turns: seq<seq<Action>>, ts: seq<TaskId>, r: nat)
    requires Reachable(c, s) && Known(s, ts) && KeepsMoving(c, s, turns, ts)
    requires TotalReaps(Run(c, s, Flat(turns)), ts) - TotalReaps(s, ts) <= r
    requires |turns| > 2 * (MaxRetries(c) + 1) * |ts| + 2 * r
    ensures Known(Run(c, s, Flat(turns)), ts) && AllSettled(Run(c, s, Flat(turns)), ts)
  {
    ReachableAccounted(c, s);
    TurnsSpend(c, s, turns, ts, |turns|);
    assert turns[..|turns|] == turns;
    TotalFuelBounds(c, s, ts);
    TotalFuelBounds(c, Run(c, s, Flat(turns)), ts);
  }

  // ---- a turn of the dispatch loop ----

  /** The tasks of a queue, all of them. */
  ghost predicate ListsQueue(s: State, ts: seq<TaskId>, queue: string) {
    forall t :: t in ts <==> t in s.rows && s.rows[t].queue == queue
  }

  /** Long enough for every lease of the queue to run out and every backoff to pass. */
  ghost predicate WaitsOut(s: State, queue: string, dt: real) {
    && dt >= 0.0
    && forall t :: t in s.rows && s.rows[t].queue == queue ==>
         && (s.rows[t].status.Leased? && s.rows[t].leaseUntil.Some? ==> s.rows[t].leaseUntil.value < s.now + dt)
         && (s.rows[t].status.Pending? ==> s.rows[t].runAfter <= s.now + dt)
  }

  /** After a wait and a reap. */
  function Reaped(s: State, dt: real): State {
    DoReap(s.(now := s.now + dt))
  }

  /** A claim of a batch of at least one, which finds a row if there is one to find. */
  ghost predicate ClaimsWhatIsDue(u: State, a: Action, queue: string) {
    && a.Dequeue? && a.queue == queue && a.limit > 0
    && IsSelection(u.rows, queue, u.now, a.locked, a.limit, a.claimed)
    && (Eligible(u.rows, queue, u.now, {}) != {} ==> Eligible(u.rows, queue, u.now, a.locked) != {})
  }

  /** After a wait the reaper runs, a worker claims a batch, and then anything may happen to what it
      claimed: executions finish in any way, crash, hang, stale ones write, other workers join in; only
      no new task is enqueued. */
  ghost predicate DispatchTurn(c: Config, s: State, turn: seq<Action>, queue: string) {
    && |turn| >= 3 && turn[0].Tick? && WaitsOut(s, queue, turn[0].dt) && turn[1].Reap?
    && ClaimsWhatIsDue(Reaped(s, turn[0].dt), turn[2], queue)
    && forall k :: 0 <= k < |turn| ==> !turn[k].Enqueue?
  }

  lemma {:induction false} ChangesOfPrefix(c: Config, s: State, acts: seq<Action>, n: nat, t: TaskId)
    requires n <= |acts|
    ensures Changes(c, s, acts[..n], t) <= Changes(c, s, acts, t)
  {
    if n == |acts| {
      assert acts[..n] == acts;
    } else {
      ChangesOfPrefix(c, s, acts[..|acts| - 1], n, t);
      assert acts[..|acts| - 1][..n] == acts[..n];
    }
  }

  /** A change between two neighbouring states of a run counts. */
  lemma ChangesAt(c: Config, s: State, acts: seq<Action>, n: nat, t: TaskId)
    requires n < |acts|
    requires var u, u' := Run(c, s, acts[..n]), Run(c, s, acts[..n + 1]);
             t in u.rows && t in u'.rows && u.rows[t].status != u'.rows[t].status
    ensures Changes(c, s, acts, t) > 0
  {
    RunStep(c, s, acts, n);
    assert acts[..n + 1][..n] == acts[..n];
    ChangesOfPrefix(c, s, acts, n + 1, t);
  }

  lemma ChangesBetween(c: Config, s: State, acts: seq<Action>, n: nat, u: State, u': State, t: TaskId)
    requires n < |acts| && Run(c, s, acts[..n]) == u && Run(c, s, acts[..n + 1]) == u'
    requires t in u.rows && t in u'.rows && u.rows[t].status != u'.rows[t].status
    ensures Changes(c, s, acts, t) > 0
  {
    ChangesAt(c, s, acts, n, t);
  }

  lemma FirstTwo(c: Config, s: State, turn: seq<Action>, queue: string)
    requires DispatchTurn(c, s, turn, queue)
    ensures Run(c, s, turn[..1]) == s.(now := s.now + turn[0].dt)
    ensures Run(c, s, turn[..2]) == Reaped(s, turn[0].dt)
  {
    RunStep(c, s, turn, 0);
    RunStep(c, s, turn, 1);
  }

  lemma ReapFrees(s: State, queue: string, dt: real, t: TaskId)
    requires WaitsOut(s, queue, dt) && t in s.rows && s.rows[t].queue == queue
    requires s.rows[t].status.Leased? && s.rows[t].leaseUntil.Some?
    ensures t in Reaped(s, dt).rows && Reaped(s, dt).rows[t].status.Pending?
  {
  }

  lemma PendingIsDue(s: State, queue: string, dt: real, t: TaskId)
    requires WaitsOut(s, queue, dt) && t in s.rows && s.rows[t].queue == queue && s.rows[t].status.Pending?
    ensures var u := Reaped(s, dt);
            t in Eligible(u.rows, queue, u.now, {}) && SameQueue(s, u, queue)
  {
  }

  lemma ClaimTakes(c: Config, u: State, a: Action, queue: string, t: TaskId) returns (claimed: TaskId)
    requires ClaimsWhatIsDue(u, a, queue) && t in Eligible(u.rows, queue, u.now, {})
    ensures claimed in u.rows && u.rows[claimed].queue == queue && u.rows[claimed].status.Pending?
    ensures claimed in Next(c, u, a).rows && Next(c, u, a).rows[claimed].status.Leased?
  {
    var x :| x in Eligible(u.rows, queue, u.now, a.locked);
    assert |a.claimed| == a.limit || x in a.claimed;
    claimed := a.claimed[0];
    assert claimed in Eligible(u.rows, queue, u.now, a.locked);
  }

  lemma ThirdStep(c: Config, s: State, turn: seq<Action>, queue: string, u: State, t: TaskId)
    returns (after: State, claimed: TaskId)
    requires |turn| >= 3 && Run(c, s, turn[..2]) == u
    requires ClaimsWhatIsDue(u, turn[2], queue) && t in Eligible(u.rows, queue, u.now, {})
    ensures Run(c, s, turn[..3]) == after && claimed in u.rows && u.rows[claimed].queue == queue
    ensures u.rows[claimed].status.Pending? && claimed in after.rows && after.rows[claimed].status.Leased?
  {
    RunStep(c, s, turn, 2);
    after := Next(c, u, turn[2]);
    claimed := ClaimTakes(c, u, turn[2], queue, t);
  }

  lemma ClaimAfterReap(c: Config, s: State, turn: seq<Action>, queue: string, u: State, t: TaskId)
    returns (moved: TaskId)
    requires |turn| >= 3 && Run(c, s, turn[..2]) == u && SameQueue(s, u, queue)
    requires ClaimsWhatIsDue(u, turn[2], queue) && t in Eligible(u.rows, queue, u.now, {})
    ensures moved in s.rows && s.rows[moved].queue == queue && Changes(c, s, turn, moved) > 0
  {
    var after;
    after, moved := ThirdStep(c, s, turn, queue, u, t);
    ChangesBetween(c, s, turn, 2, u, after, moved);
  }

  ghost predicate SameQueue(s: State, u: State, queue: string) {
    forall t :: t in u.rows && u.rows[t].queue == queue ==> t in s.rows && s.rows[t].queue == queue
  }

  /** The state a turn has reached when its claim runs: everything pending in the queue is due. */
  lemma AfterReap(c: Config, s: State, turn: seq<Action>, queue: string, t: TaskId) returns (u: State)
    requires DispatchTurn(c, s, turn, queue) && t in s.rows && s.rows[t].queue == queue && s.rows[t].status.Pending?
    ensures Run(c, s, turn[..2]) == u && SameQueue(s, u, queue)
    ensures ClaimsWhatIsDue(u, turn[2], queue) && t in Eligible(u.rows, queue, u.now, {})
  {
    u := Reaped(s, turn[0].dt);
    FirstTwo(c, s, turn, queue);
    PendingIsDue(s, queue, turn[0].dt, t);
  }

  lemma TurnMovesPending(c: Config, s: State, turn: seq<Action>, queue: string, t: TaskId) returns (moved: TaskId)
    requires DispatchTurn(c, s, turn, queue) && t in s.rows && s.rows[t].queue == queue && s.rows[t].status.Pending?
    ensures moved in s.rows && s.rows[moved].queue == queue && Changes(c, s, turn, moved) > 0
  {
    var u := AfterReap(c, s, turn, queue, t);
    moved := ClaimAfterReap(c, s, turn, queue, u, t);
  }

  lemma TurnMovesLeased(c: Config, s: State, turn: seq<Action>, queue: string, t: TaskId)
    requires DispatchTurn(c, s, turn, queue) && t in s.rows && RowOk(c, s, t)
    requires s.rows[t].queue == queue && s.rows[t].status.Leased?
    ensures Changes(c, s, turn, t) > 0
  {
    var s1 := s.(now := s.now + turn[0].dt);
    FirstTwo(c, s, turn, queue);
    ReapFrees(s, queue, turn[0].dt, t);
    ChangesBetween(c, s, turn, 1, s1, Reaped(s, turn[0].dt), t);
  }

  lemma TurnMovesOne(c: Config, s: State, turn: seq<Action>, queue: string, t: TaskId) returns (moved: TaskId)
    requires DispatchTurn(c, s, turn, queue) && t in s.rows && RowOk(c, s, t)
    requires s.rows[t].queue == queue && s.rows[t].status !in SETTLED
    ensures moved in s.rows && s.rows[moved].queue == queue && Changes(c, s, turn, moved) > 0
  {
    moved := t;
    if s.rows[t].status.Leased? {
      TurnMovesLeased(c, s, turn, queue, t);
    } else {
      moved := TurnMovesPending(c, s, turn, queue, t);
    }
  }

  ghost predicate HasMover(c: Config, s: State, turn: seq<Action>, queue: string) {
    exists t :: t in s.rows && s.rows[t].queue == queue && Changes(c, s, turn, t) > 0
  }

  lemma MoverIsListed(c: Config, s: State, turn: seq<Action>, queue: string, ts: seq<TaskId>)
    requires ListsQueue(s, ts, queue) && HasMover(c, s, turn, queue)
    ensures Moves(c, s, turn, ts)
  {
    var t :| t in s.rows && s.rows[t].queue == queue && Changes(c, s, turn, t) > 0;
    assert t in ts;
  }

  /** A dispatch turn changes the status of some task of its queue unless all are settled. */
  lemma DispatchTurnMoves(c: Config, s: State, turn: seq<Action>, queue: string, ts: seq<TaskId>)
    requires Accounted(c, s) && DispatchTurn(c, s, turn, queue) && ListsQueue(s, ts, queue)
    ensures AllSettled(s, ts) || Moves(c, s, turn, ts)
  {
    if t :| t in ts && s.rows[t].status !in SETTLED {
      var moved := TurnMovesOne(c, s, turn, queue, t);
      MoverIsListed(c, s, turn, queue, ts);
    }
  }

  // ---- the loop ----

  ghost predicate DispatchTurns(c: Config, s: State, turns: seq<seq<Action>>, queue: string) {
    forall n :: 0 <= n < |turns| ==> DispatchTurn(c, Run(c, s, Flat(turns[..n])), turns[n], queue)
  }

  lemma NextKeepsQueue(c: Config, s: State, a: Action, ts: seq<TaskId>, queue: string)
    requires Accounted(c, s) && !a.Enqueue? && ListsQueue(s, ts, queue)
    ensures ListsQueue(Next(c, s, a), ts, queue)
  {
    NextKeepsSettled(c, s, a);
    Fanout.NextKeepsRows(c, s, a);
    var s' := Next(c, s, a);
    assert forall t :: t in s.rows ==> t in s'.rows && SameTask(s.rows[t], s'.rows[t]);
  }

  lemma {:induction false} RunKeepsQueue(c: Config, s: State, acts: seq<Action>, ts: seq<TaskId>, queue: string)
    requires Accounted(c, s) && ListsQueue(s, ts, queue) && forall k :: 0 <= k < |acts| ==> !acts[k].Enqueue?
    ensures ListsQueue(Run(c, s, acts), ts, queue) && Accounted(c, Run(c, s, acts))
  {
    if acts != [] {
      var u := Run(c, s, acts[..|acts| - 1]);
      RunKeepsQueue(c, s, acts[..|acts| - 1], ts, queue);
      NextKeepsQueue(c, u, acts[|acts| - 1], ts, queue);
      NextAccounted(c, u, acts[|acts| - 1]);
    }
  }

  lemma {:induction false} DispatchKeepsMoving(c: Config, s: State, turns: seq<seq<Action>>, queue: string,
        ts: seq<TaskId>, n: nat)
    requires Accounted(c, s) && ListsQueue(s, ts, queue) && DispatchTurns(c, s, turns, queue) && n <= |turns|
    ensures var u := Run(c, s, Flat(turns[..n]));
            && Accounted(c, u) && ListsQueue(u, ts, queue)
            && (n < |turns| ==> AllSettled(u, ts) || Moves(c, u, turns[n], ts))
  {
    if n == 0 {
      assert Flat(turns[..0]) == [];
    } else {
      DispatchKeepsMoving(c, s, turns, queue, ts, n - 1);
      FlatStep(c, s, turns, n - 1);
      RunKeepsQueue(c, Run(c, s, Flat(turns[..n - 1])), turns[n - 1], ts, queue);
    }
    if n < |turns| {
      DispatchTurnMoves(c, Run(c, s, Flat(turns[..n])), turns[n], queue, ts);
    }
  }

  /** So the dispatch loop terminates against every adversary: whatever becomes of claimed tasks in each
      turn, after more turns than 2 * max_attempts a task and 2 a reap, all tasks of the queue are
      succeeded, failed, cancelled or dead. */
  lemma DispatchLoopSettles(c: Config, s: State, turns: seq<seq<Action>>, queue: string, ts: seq<TaskId>, r: nat)
    requires Reachable(c, s) && ListsQueue(s, ts, queue) && DispatchTurns(c, s, turns, queue)
    requires TotalReaps(Run(c, s, Flat(turns)), ts) - TotalReaps(s, ts) <= r
    requires |turns| > 2 * (MaxRetries(c) + 1) * |ts| + 2 * r
    ensures Known(Run(c, s, Flat(turns)), ts) && AllSettled(Run(c, s, Flat(turns)), ts)
  {
    ReachableAccounted(c, s);
    forall n | 0 <= n < |turns|
      ensures var u := Run(c, s, Flat(turns[..n])); Known(u, ts) && (AllSettled(u, ts) || Moves(c, u, turns[n], ts))
    {
      DispatchKeepsMoving(c, s, turns, queue, ts, n);
    }
    EveryLoopSettles(c, s, turns, ts, r);
  }
}
