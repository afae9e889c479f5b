/** packages/durable/queue.py, DEQUEUE in its two moments: the selection locks rows, skipping those other
    transactions hold, and the lease becomes visible at the commit. Between the two anything may happen to
    rows nobody has locked. */
module ClaimLocks {
  import opened Prelude
  import opened TaskQueue
  import Worker
  import Q = QueueMachine

  type Txn = nat

  /** An open transaction that has run DEQUEUE at its own now(), `since`. History: the table it saw and the
      rows it found held by others. */
  datatype Claim = Claim(owner: Owner, queue: string, limit: nat, claimed: seq<TaskId>, since: real, seen: Rows,
      held: set<TaskId>)

  datatype State = State(q: Q.State, claims: map<Txn, Claim>)

  datatype Action =
    | Lock(txn: Txn, owner: Owner, queue: string, limit: nat, claimed: seq<TaskId>)
    | Commit(txn: Txn)
    | Rollback(txn: Txn)
    | Other(qa: Q.Action)   // the clock, or any other statement, once it can get its row locks

  predicate IsLocked(s: State, t: TaskId) {
    exists x :: x in s.claims && t in s.claims[x].claimed
  }

  ghost function LockedRows(s: State): set<TaskId> {
    set t | t in s.q.rows && IsLocked(s, t)
  }

  /** The statement changes no row somebody has locked. */
  ghost predicate MayRun(c: Worker.Config, s: State, qa: Q.Action) {
    && !qa.Dequeue?
    && forall t :: t in s.q.rows && IsLocked(s, t) ==>
         t in Q.Next(c, s.q, qa).rows && Q.Next(c, s.q, qa).rows[t] == s.q.rows[t]
  }

  ghost function Next(c: Worker.Config, s: State, a: Action): State {
    match a
    case Lock(x, owner, queue, limit, claimed) =>
      if x !in s.claims && IsSelection(s.q.rows, queue, s.q.now, LockedRows(s), limit, claimed)
      then s.(claims := s.claims[x := Claim(owner, queue, limit, claimed, s.q.now, s.q.rows, LockedRows(s))])
      else s
    case Commit(x) =>
      if x in s.claims
      then State(Q.Lease(s.q, s.claims[x].claimed, s.claims[x].owner, s.claims[x].since + c.leaseSeconds),
          s.claims - {x})
      else s
    case Rollback(x) => s.(claims := s.claims - {x})
    case Other(qa) => if MayRun(c, s, qa) then s.(q := Q.Next(c, s.q, qa)) else s
  }

  ghost function Run(c: Worker.Config, s: State, acts: seq<Action>): State {
    if acts == [] then s else Next(c, Run(c, s, acts[..|acts| - 1]), acts[|acts| - 1])
  }

  function Init(now: real): State {
    State(Q.Init(now), map[])
  }

  ghost predicate Reachable(c: Worker.Config, s: State) {
    exists now, acts :: s == Run(c, Init(now), acts)
  }

  // ---- what the locks keep ----

  /** The rows of an open claim are still what its selection found. */
  ghost predicate ClaimOk(s: State, x: Txn)
    requires x in s.claims
  {
    var claim := s.claims[x];
    && claim.since <= s.q.now
    && IsSelection(claim.seen, claim.queue, claim.since, claim.held, claim.limit, claim.claimed)
    && (forall t :: t in claim.claimed ==> t in s.q.rows && t in claim.seen && s.q.rows[t] == claim.seen[t])
  }

  ghost predicate Disjoint(s: State, x: Txn, y: Txn)
    requires x in s.claims && y in s.claims
  {
    forall t :: t in s.claims[x].claimed ==> t !in s.claims[y].claimed
  }

  ghost predicate LocksOk(s: State) {
    && (forall x :: x in s.claims ==> ClaimOk(s, x))
    && (forall x, y :: x in s.claims && y in s.claims && x != y ==> Disjoint(s, x, y))
  }

  lemma LockKeeps(c: Worker.Config, s: State, a: Action)
    requires LocksOk(s) && a.Lock?
    ensures LocksOk(Next(c, s, a))
  {
    var s' := Next(c, s, a);
    if s' != s {
      assert forall t :: t in a.claimed ==>
          t in Eligible(s.q.rows, a.queue, s.q.now, LockedRows(s)) && !IsLocked(s, t);
      forall x | x in s'.claims ensures ClaimOk(s', x) {
        assert x != a.txn ==> ClaimOk(s, x);
      }
      forall x, y | x in s'.claims && y in s'.claims && x != y ensures Disjoint(s', x, y) {
        assert x != a.txn && y != a.txn ==> Disjoint(s, x, y);
      }
    }
  }

  lemma CommitKeeps(c: Worker.Config, s: State, x: Txn)
    requires LocksOk(s)
    ensures LocksOk(Next(c, s, Commit(x)))
  {
    var s' := Next(c, s, Commit(x));
    forall y | y in s'.claims ensures ClaimOk(s', y) {
      assert ClaimOk(s, y);
      assert x in s.claims ==> Disjoint(s, y, x);
    }
    forall y, z | y in s'.claims && z in s'.claims && y != z ensures Disjoint(s', y, z) {
      assert Disjoint(s, y, z);
    }
  }

  lemma ClockKeeps(c: Worker.Config, q: Q.State, qa: Q.Action)
    ensures Q.Next(c, q, qa).now >= q.now
  {
  }

  lemma OthersKeep(c: Worker.Config, s: State, a: Action)
    requires LocksOk(s) && (a.Rollback? || a.Other?)
    ensures LocksOk(Next(c, s, a))
  {
    var s' := Next(c, s, a);
    if a.Other? {
      ClockKeeps(c, s.q, a.qa);
    }
    forall y | y in s'.claims ensures ClaimOk(s', y) {
      assert ClaimOk(s, y);
      assert forall t :: t in s.claims[y].claimed ==> IsLocked(s, t);
    }
    forall y, z | y in s'.claims && z in s'.claims && y != z ensures Disjoint(s', y, z) {
      assert Disjoint(s, y, z);
    }
  }

  lemma NextKeepsLocks(c: Worker.Config, s: State, a: Action)
    requires LocksOk(s)
    ensures LocksOk(Next(c, s, a))
  {
    match a
    case Lock(_, _, _, _, _) => LockKeeps(c, s, a);
    case Commit(x) => CommitKeeps(c, s, x);
    case _ => OthersKeep(c, s, a);
  }

  lemma {:induction false} RunKeepsLocks(c: Worker.Config, s: State, acts: seq<Action>)
    requires LocksOk(s)
    ensures LocksOk(Run(c, s, acts))
  {
    if acts != [] {
      RunKeepsLocks(c, s, acts[..|acts| - 1]);
      NextKeepsLocks(c, Run(c, s, acts[..|acts| - 1]), acts[|acts| - 1]);
    }
  }

  lemma ReachableLocksOk(c: Worker.Config, s: State)
    requires Reachable(c, s)
    ensures LocksOk(s)
  {
    var now, acts :| s == Run(c, Init(now), acts);
    RunKeepsLocks(c, Init(now), acts);
  }

  /** Claims open at the same time share no row, and no commit leases a row that another claim has leased:
      every row it writes is pending at that moment. */
  lemma ClaimsNeverCollide(c: Worker.Config, s: State, x: Txn, y: Txn)
    requires Reachable(c, s) && x in s.claims && y in s.claims && x != y
    ensures forall t :: t in s.claims[x].claimed ==> t !in s.claims[y].claimed
    ensures forall t :: t in s.claims[x].claimed ==> t in s.q.rows && s.q.rows[t].status.Pending?
    ensures forall t :: t in s.claims[x].claimed ==>
        t in Next(c, s, Commit(y)).q.rows && Next(c, s, Commit(y)).q.rows[t] == s.q.rows[t]
  {
    ReachableLocksOk(c, s);
    assert ClaimOk(s, x) && Disjoint(s, x, y);
    var claim := s.claims[x];
    assert forall t :: t in claim.claimed ==> t in Eligible(claim.seen, claim.queue, claim.since, claim.held);
  }

  // ---- the queue machine is what one sees ----

  /** Rows the claim could have had: due when it ran, held by nobody, and unchanged since. */
  ghost predicate Offered(claim: Claim, rows: Rows, t: TaskId) {
    && t in rows && t in claim.seen && rows[t] == claim.seen[t]
    && Due(claim.seen[t], claim.queue, claim.since) && t !in claim.held
  }

  /** The others: held then, or inserted, written or fallen due between the claim and its commit. */
  ghost function NotOffered(claim: Claim, rows: Rows): set<TaskId> {
    set t | t in rows && !Offered(claim, rows, t)
  }

  /** A selection is still one among what was offered and has not changed. */
  lemma SelectionLasts(claim: Claim, rows: Rows, now: real)
    requires IsSelection(claim.seen, claim.queue, claim.since, claim.held, claim.limit, claim.claimed)
    requires claim.since <= now
    requires forall t :: t in claim.claimed ==> t in rows && t in claim.seen && rows[t] == claim.seen[t]
    ensures IsSelection(rows, claim.queue, now, NotOffered(claim, rows), claim.limit, claim.claimed)
    ensures forall t :: t in claim.claimed ==> Offered(claim, rows, t)
  {
    var before := Eligible(claim.seen, claim.queue, claim.since, claim.held);
    var after := Eligible(rows, claim.queue, now, NotOffered(claim, rows));
    assert forall t :: t in claim.claimed ==> t in before && Offered(claim, rows, t) && t in after;
    assert forall t :: t in after ==> Offered(claim, rows, t) && t in before;
  }

  lemma OfferedIsOrdered(claim: Claim, rows: Rows, now: real)
    requires IsSelection(rows, claim.queue, now, NotOffered(claim, rows), claim.limit, claim.claimed)
    requires claim.since <= now
    ensures forall u :: Offered(claim, rows, u) && u !in claim.claimed ==>
              && |claim.claimed| == claim.limit
              && forall t :: t in claim.claimed ==>
                   t in rows
                   && (rows[t].runAfter < rows[u].runAfter
                       || (rows[t].runAfter == rows[u].runAfter && rows[t].createdAt <= rows[u].createdAt))
  {
    var eligible := Eligible(rows, claim.queue, now, NotOffered(claim, rows));
    assert forall u :: Offered(claim, rows, u) ==> u in eligible;
    assert forall t :: t in claim.claimed ==> t in eligible;
  }

  lemma LeaseIsDequeue(c: Worker.Config, q: Q.State, owner: Owner, queue: string, limit: nat, since: real,
        locked: set<TaskId>, claimed: seq<TaskId>)
    requires IsSelection(q.rows, queue, q.now, locked, limit, claimed) && since <= q.now
    ensures Q.Next(c, q, Q.Dequeue(owner, queue, limit, q.now - since, locked, claimed)) ==
            Q.Lease(q, claimed, owner, since + c.leaseSeconds)
  {
  }

  /** A commit is one step of the queue machine: a DEQUEUE as old as the claim, which leases the least of
      the rows that were offered and have not been touched since. */
  lemma CommitIsOneDequeue(c: Worker.Config, s: State, x: Txn)
    requires Reachable(c, s) && x in s.claims
    ensures var claim := s.claims[x];
            && IsSelection(s.q.rows, claim.queue, s.q.now, NotOffered(claim, s.q.rows), claim.limit, claim.claimed)
            && (forall t :: t in claim.claimed ==> Offered(claim, s.q.rows, t))
            && claim.since <= s.q.now
            && (forall u :: Offered(claim, s.q.rows, u) && u !in claim.claimed ==>
                  && |claim.claimed| == claim.limit
                  && forall t :: t in claim.claimed ==>
                       s.q.rows[t].runAfter < s.q.rows[u].runAfter
                       || (s.q.rows[t].runAfter == s.q.rows[u].runAfter
                           && s.q.rows[t].createdAt <= s.q.rows[u].createdAt))
            && Next(c, s, Commit(x)).q == Q.Next(c, s.q, Q.Dequeue(claim.owner, claim.queue, claim.limit,
                s.q.now - claim.since, NotOffered(claim, s.q.rows), claim.claimed))
  {
    ReachableLocksOk(c, s);
    assert ClaimOk(s, x);
    var claim := s.claims[x];
    SelectionLasts(claim, s.q.rows, s.q.now);
    OfferedIsOrdered(claim, s.q.rows, s.q.now);
    LeaseIsDequeue(c, s.q, claim.owner, claim.queue, claim.limit, claim.since, NotOffered(claim, s.q.rows),
                   claim.claimed);
  }

  lemma OneAct(c: Worker.Config, q: Q.State, a: Q.Action)
    ensures Q.Run(c, q, [a]) == Q.Next(c, q, a)
  {
    Q.RunStep(c, q, [a], 0);
    assert [a][..1] == [a];
  }

  /** Every step is at most one step of the queue machine. */
  lemma NextIsQueueStep(c: Worker.Config, s: State, a: Action) returns (acts: seq<Q.Action>)
    requires Reachable(c, s)
    ensures Next(c, s, a).q == Q.Run(c, s.q, acts)
  {
    acts := [];
    match a {
      case Commit(x) =>
        if x in s.claims {
          CommitIsOneDequeue(c, s, x);
          var claim := s.claims[x];
          acts := [Q.Dequeue(claim.owner, claim.queue, claim.limit, s.q.now - claim.since,
              NotOffered(claim, s.q.rows), claim.claimed)];
          OneAct(c, s.q, acts[0]);
        }
      case Other(qa) =>
        if MayRun(c, s, qa) {
          acts := [qa];
          OneAct(c, s.q, qa);
        }
      case _ =>
    }
  }

  /** Refinement: whatever the transactions interleave, the table and the executions go through a run of
      the queue machine, so that all that is proved of its runs holds here. */
  lemma {:induction false} RunIsQueueRun(c: Worker.Config, now: real, acts: seq<Action>)
    ensures Q.Reachable(c, Run(c, Init(now), acts).q)
  {
    if acts == [] {
      assert Q.Run(c, Q.Init(now), []) == Q.Init(now);
    } else {
      var s := Run(c, Init(now), acts[..|acts| - 1]);
      RunIsQueueRun(c, now, acts[..|acts| - 1]);
      assert Reachable(c, s);
      var qnow, before :| s.q == Q.Run(c, Q.Init(qnow), before);
      var more := NextIsQueueStep(c, s, acts[|acts| - 1]);
      Q.RunConcat(c, Q.Init(qnow), before, more);
    }
  }
}
