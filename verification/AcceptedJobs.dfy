/** From the provider back to the tables: what has become of the job of a message the provider accepted. */
module AcceptedJobs {
  import opened Prelude
  import opened Transitions
  import opened Models
  import opened JobStore
  import opened Webhooks
  import opened FakeProvider
  import opened SendMachine
  import opened SendSafety
  import opened SendTheorems

  // ---- one commit at the end: a refusal and an acceptance exclude each other ----

  /** Phases an execution can only be in if nobody got its key accepted. */
  predicate Refusable(p: Phase) {
    p.Trying? || p.Putting? || p.RecordingPermanent?
  }

  ghost predicate Unaccepted(s: State, e: SendExec) {
    Refusable(e.phase) ==> e.job !in s.provider.cache
  }

  ghost predicate FailedUnaccepted(s: State, j: JobId) {
    j in s.db.jobs && s.db.jobs[j].status == SendStatus.FailedPermanent ==> j !in s.provider.cache
  }

  ghost predicate AcceptOk(s: State) {
    && (forall i :: 0 <= i < |s.execs| ==> Unaccepted(s, s.execs[i]))
    && (forall j :: FailedUnaccepted(s, j))
  }

  /** A step that accepts nothing keeps this, if what it moves or fails is unaccepted. */
  lemma NothingAccepted(s: State, s': State)
    requires AcceptOk(s) && s'.provider.cache == s.provider.cache
    requires forall i :: 0 <= i < |s'.execs| ==>
        (i < |s.execs| && s'.execs[i] == s.execs[i]) || Unaccepted(s', s'.execs[i])
    requires forall j :: j in s'.db.jobs && s'.db.jobs[j].status == SendStatus.FailedPermanent ==>
               (j in s.db.jobs && s.db.jobs[j].status == SendStatus.FailedPermanent) || j !in s.provider.cache
    ensures AcceptOk(s')
  {
    forall j ensures FailedUnaccepted(s', j) {
      assert FailedUnaccepted(s, j);
    }
    forall i | 0 <= i < |s'.execs| ensures Unaccepted(s', s'.execs[i]) {
      if i < |s.execs| && s'.execs[i] == s.execs[i] {
        assert Unaccepted(s, s.execs[i]);
      }
    }
  }

  /** Accepting j: the row lock keeps everyone else on j out of the way, and the row is still claimable. */
  lemma PutAccepts(s: State, i: nat, at: real)
    requires Core(PerTransaction, s) && AcceptOk(s) && i < |s.execs| && s.execs[i].phase == Putting(at)
    ensures AcceptOk(DoPut(s, i, at))
  {
    var s' := DoPut(s, i, at);
    assert ExecOk(PerTransaction, s, s.execs[i]) && Unaccepted(s, s.execs[i]);
    forall k | 0 <= k < |s'.execs| ensures Unaccepted(s', s'.execs[k]) {
      if k != i {
        assert Unaccepted(s, s.execs[k]);
        assert Refusable(s.execs[k].phase) ==> InFlight(s.execs[k].phase) && s.execs[k].job != s.execs[i].job;
      }
    }
    forall j ensures FailedUnaccepted(s', j) {
      assert FailedUnaccepted(s, j);
    }
  }

  /** Only the record of a refusal fails a job for good, and only its own. */
  lemma StepFails(g: Granularity, s: State, i: nat, v: Verdict, j: JobId)
    requires i < |s.execs| && j in s.db.jobs && s.db.jobs[j].status != SendStatus.FailedPermanent
    requires j in DoStep(g, s, i, v).db.jobs && DoStep(g, s, i, v).db.jobs[j].status == SendStatus.FailedPermanent
    ensures s.execs[i].phase.RecordingPermanent? && s.execs[i].job == j
  {
    var k := s.execs[i].job;
    RecordsFailNothing(g, s.db, k, j);
    match s.execs[i].phase
    case Recovering(m) => RecordFailsNothing(g, s.db, k, m, s.now, j);
    case Recording(m, at) => RecordFailsNothing(g, s.db, k, m, at, j);
    case _ =>
  }

  lemma RecordFailsNothing(g: Granularity, d: Db, k: JobId, m: MessageId, at: real, j: JobId)
    requires j in d.jobs && d.jobs[j].status != SendStatus.FailedPermanent
    ensures MarkSent(Session(g, d, k), k, m, at).jobs[j].status != SendStatus.FailedPermanent
  {
  }

  lemma RecordsFailNothing(g: Granularity, d: Db, k: JobId, j: JobId)
    requires j in d.jobs && d.jobs[j].status != SendStatus.FailedPermanent
    ensures WithRow(d, k, ClaimRow).jobs[j].status != SendStatus.FailedPermanent
    ensures WithRow(Session(g, d, k), k, MarkTransientRow).jobs[j].status != SendStatus.FailedPermanent
    ensures k != j ==> WithRow(Session(g, d, k), k, MarkPermanentRow).jobs[j].status != SendStatus.FailedPermanent
  {
  }

  lemma StepAcceptOk(s: State, i: nat, v: Verdict)
    requires Core(PerTransaction, s) && AcceptOk(s) && i < |s.execs|
    ensures AcceptOk(DoStep(PerTransaction, s, i, v))
  {
    var s' := DoStep(PerTransaction, s, i, v);
    assert Unaccepted(s, s.execs[i]);
    if s.execs[i].phase.Putting? {
      PutAccepts(s, i, s.execs[i].phase.at);
    } else {
      StepDb(PerTransaction, s, i, v);
      StepMoves(PerTransaction, s, i, v);
      forall j | j in s'.db.jobs && s'.db.jobs[j].status == SendStatus.FailedPermanent
        ensures (j in s.db.jobs && s.db.jobs[j].status == SendStatus.FailedPermanent) || j !in s.provider.cache
      {
        assert j in s.db.jobs;
        if s.db.jobs[j].status != SendStatus.FailedPermanent {
          StepFails(PerTransaction, s, i, v, j);
        }
      }
      YieldingAccepts(s, i, v);
      NothingAccepted(s, s');
    }
  }

  /** Where one statement can lead, as far as unaccepted keys are concerned. */
  lemma StepMoves(g: Granularity, s: State, i: nat, v: Verdict)
    requires i < |s.execs|
    ensures var s' := DoStep(g, s, i, v);
            && |s'.execs| == |s.execs| && s'.execs[i].job == s.execs[i].job
            && (forall k :: 0 <= k < |s.execs| && k != i ==> s'.execs[k] == s.execs[k])
            && (Refusable(s'.execs[i].phase) ==>
                  Refusable(s.execs[i].phase) || (s.execs[i].phase.Looking? && s.execs[i].job !in s.provider.cache))
  {
  }

  lemma YieldingAccepts(s: State, i: nat, v: Verdict)
    requires Core(PerTransaction, s) && i < |s.execs| && !s.execs[i].phase.Putting?
    ensures DoStep(PerTransaction, s, i, v).provider.cache == s.provider.cache
  {
    assert ExecOk(PerTransaction, s, s.execs[i]);
  }

  lemma NextAcceptOk(s: State, a: Action)
    requires Core(PerTransaction, s) && AcceptOk(s)
    ensures AcceptOk(Next(PerTransaction, s, a))
  {
    var s' := Next(PerTransaction, s, a);
    match a
    case Step(i, v) => if i < |s.execs| { StepAcceptOk(s, i, v); }
    case Abort(_, _) => QuietAcceptOk(s, a);
    case Timeout(_, _) => QuietAcceptOk(s, a);
    case Crash(_) => QuietAcceptOk(s, a);
    case Start(_) => QuietAcceptOk(s, a);
    case Tick(_) => QuietAcceptOk(s, a);
    case _ => TablesAcceptOk(s, a);
  }

  lemma QuietAcceptOk(s: State, a: Action)
    requires AcceptOk(s) && (a.Abort? || a.Timeout? || a.Crash? || a.Start? || a.Tick?)
    ensures AcceptOk(Next(PerTransaction, s, a))
  {
    NothingAccepted(s, Next(PerTransaction, s, a));
  }

  lemma TablesAcceptOk(s: State, a: Action)
    requires AcceptOk(s) && (a.InsertJob? || a.CancelJob? || a.Ingest? || a.Process? || a.Sweep?)
    ensures AcceptOk(Next(PerTransaction, s, a))
  {
    if a.Process? || a.Sweep? {
      ProcessKeepsIdentity(s.db, a.id, s.now);
    }
    NothingAccepted(s, Next(PerTransaction, s, a));
  }

  lemma {:induction false} RunAcceptOk(now: real, acts: seq<Action>)
    ensures AcceptOk(Run(PerTransaction, Init(now), acts))
  {
    if acts != [] {
      RunAcceptOk(now, acts[..|acts| - 1]);
      var s := Run(PerTransaction, Init(now), acts[..|acts| - 1]);
      assert Reachable(PerTransaction, s);
      ReachableInv(PerTransaction, s);
      NextAcceptOk(s, acts[|acts| - 1]);
    }
  }

  // ---- what that says about every reachable state ----

  ghost predicate NoneSkipped(d: Db) {
    forall j :: j in d.jobs ==> d.jobs[j].status != SendStatus.Skipped
  }

  lemma StepSkipsNone(g: Granularity, s: State, i: nat, v: Verdict)
    requires NoneSkipped(s.db) && i < |s.execs|
    ensures NoneSkipped(DoStep(g, s, i, v).db)
  {
    StepDb(g, s, i, v);
    ResultSkipsNone(g, s.db, s.execs[i].job, DoStep(g, s, i, v).db);
  }

  lemma RecordSkipsNone(d: Db, j: JobId, m: MessageId, at: real)
    requires NoneSkipped(d)
    ensures NoneSkipped(MarkSent(d, j, m, at))
  {
  }

  lemma RowsSkipNone(g: Granularity, d: Db, j: JobId)
    requires NoneSkipped(d)
    ensures NoneSkipped(Session(g, d, j)) && NoneSkipped(WithRow(d, j, ClaimRow))
    ensures NoneSkipped(WithRow(d, j, MarkTransientRow)) && NoneSkipped(WithRow(d, j, MarkPermanentRow))
  {
  }

  lemma ResultSkipsNone(g: Granularity, d: Db, j: JobId, d': Db)
    requires StepResult(g, d, j, d') && NoneSkipped(d)
    ensures NoneSkipped(d')
  {
    var mine := Session(g, d, j);
    RowsSkipNone(g, d, j);
    RowsSkipNone(g, mine, j);
    if m, at :| d' == MarkSent(mine, j, m, at) {
      RecordSkipsNone(mine, j, m, at);
    }
  }

  lemma NextSkipsNone(g: Granularity, s: State, a: Action)
    requires NoneSkipped(s.db)
    ensures NoneSkipped(Next(g, s, a).db)
  {
    match a
    case Step(i, v) => if i < |s.execs| { StepSkipsNone(g, s, i, v); }
    case Process(e) => ProcessKeepsIdentity(s.db, e, s.now);
    case Sweep(e) => ProcessKeepsIdentity(s.db, e, s.now);
    case _ =>
  }

  lemma {:induction false} RunSkipsNone(g: Granularity, now: real, acts: seq<Action>)
    ensures NoneSkipped(Run(g, Init(now), acts).db)
  {
    if acts != [] {
      RunSkipsNone(g, now, acts[..|acts| - 1]);
      NextSkipsNone(g, Run(g, Init(now), acts[..|acts| - 1]), acts[|acts| - 1]);
    }
  }

  /** With one commit at the end no accepted message is ever lost track of: its job exists, and is sent,
      or can still be claimed, or has been cancelled; in particular it has not failed for good. */
  lemma AcceptedIsAccountedFor(s: State, j: JobId)
    requires Reachable(PerTransaction, s) && j in s.provider.cache
    ensures j in s.db.jobs && s.db.jobs[j].status in CLAIMABLE + {SendStatus.Sent, SendStatus.Cancelled}
  {
    ReachableInv(PerTransaction, s);
    var now, acts :| s == Run(PerTransaction, Init(now), acts);
    RunAcceptOk(now, acts);
    RunSkipsNone(PerTransaction, now, acts);
    assert FailedUnaccepted(s, j);
    assert j in s.claimed;
    var st := s.db.jobs[j].status;
    match st
    case Queued => case Sending => case Sent => case FailedTransient =>
    case FailedPermanent => case Cancelled => case Skipped =>
  }

  /** And while it can be claimed, one more undisturbed call records it, under the id and at the time of
      the first acceptance and without another message. */
  lemma AcceptedIsRecoverable(s: State, j: JobId, v: Verdict)
    requires Reachable(PerTransaction, s) && j in s.provider.cache && !Locked(s, j)
    requires j in s.db.jobs && s.db.jobs[j].status in CLAIMABLE
    ensures var i := |s.execs|;
            Records(s, Run(PerTransaction, s, [Start(j), Step(i, v), Step(i, v), Step(i, v)]), j)
  {
    ReachableInv(PerTransaction, s);
    assert JobOk(PerTransaction, s, j);
    RetryRecords(s, j, [Start(j), Step(|s.execs|, v), Step(|s.execs|, v), Step(|s.execs|, v)], v);
  }

  lemma RetryRecords(s: State, j: JobId, acts: seq<Action>, v: Verdict)
    requires j in s.provider.cache && !Locked(s, j)
    requires j in s.db.jobs && s.db.jobs[j].status in CLAIMABLE && s.db.jobs[j].mid.None?
    requires acts == [Start(j), Step(|s.execs|, v), Step(|s.execs|, v), Step(|s.execs|, v)]
    ensures Records(s, Run(PerTransaction, s, acts), j)
  {
    var i := |s.execs|;
    ClaimAgain(s, j, acts, v);
    var claimed := Run(PerTransaction, s, acts[..2]);
    RunConcat(PerTransaction, s, acts[..2], [Step(i, v), Step(i, v)]);
    assert acts == acts[..2] + [Step(i, v), Step(i, v)];
    RunPair(PerTransaction, claimed, Step(i, v), Step(i, v));
    LookAndRecord(claimed, i, j, v);
  }

  lemma RunPair(g: Granularity, s: State, a: Action, b: Action)
    ensures Run(g, s, [a, b]) == Next(g, Next(g, s, a), b)
  {
    RunStep(g, s, [a, b], 0);
    RunStep(g, s, [a, b], 1);
    assert [a, b][..2] == [a, b];
  }

  /** From s to s' no message has been added, and j has been recorded as the provider accepted it. */
  ghost predicate Records(s: State, s': State, j: JobId)
    requires j in s.provider.cache
  {
    && s'.provider.cache == s.provider.cache && s'.provider.providerSends == s.provider.providerSends
    && j in s'.db.jobs && s'.db.jobs[j].status == SendStatus.Sent
    && s'.db.jobs[j].mid == Some(s.provider.cache[j].mid) && s'.db.jobs[j].sentAt == Some(s.provider.cache[j].at)
  }

  lemma LookAndRecord(s: State, i: nat, j: JobId, v: Verdict)
    requires i < |s.execs| && s.execs[i] == SendExec(j, Looking) && j in s.provider.cache
    requires j in s.db.jobs && s.db.jobs[j].status in CLAIMABLE
    ensures Records(s, DoStep(PerTransaction, DoStep(PerTransaction, s, i, v), i, v), j)
  {
    var e := s.provider.cache[j];
    var s1 := DoLook(s, i);
    assert DoStep(PerTransaction, s, i, v) == s1;
    assert s1.execs[i] == SendExec(j, Recording(e.mid, e.at)) && s1.db == s.db;
    assert DoStep(PerTransaction, s1, i, v) == DoRecord(PerTransaction, s1, i, e.mid, e.at);
  }

  lemma ClaimAgain(s: State, j: JobId, acts: seq<Action>, v: Verdict)
    requires !Locked(s, j) && j in s.db.jobs && s.db.jobs[j].status in CLAIMABLE && s.db.jobs[j].mid.None?
    requires |acts| >= 2 && acts[0] == Start(j) && acts[1] == Step(|s.execs|, v)
    ensures Run(PerTransaction, s, acts[..2]) ==
        s.(execs := s.execs + [SendExec(j, Looking)], claimed := s.claimed + {j})
  {
    RunStep(PerTransaction, s, acts, 0);
    RunStep(PerTransaction, s, acts, 1);
    var s1 := s.(execs := s.execs + [SendExec(j, Claiming)]);
    assert Run(PerTransaction, s, acts[..1]) == s1;
    ClaimsFree(s, j);
    assert s1.execs[|s.execs| := SendExec(j, Looking)] == s.execs + [SendExec(j, Looking)];
  }

  lemma ClaimsFree(s: State, j: JobId)
    requires !Locked(s, j)
    ensures !Locked(s.(execs := s.execs + [SendExec(j, Claiming)]), j)
  {
    var execs := s.execs + [SendExec(j, Claiming)];
    assert forall k :: 0 <= k < |s.execs| ==> execs[k] == s.execs[k];
  }

  // ---- every call durable at once: refused and accepted ----

  /** The job has failed for good, and its message is out. */
  ghost predicate Contradicts(s: State, j: JobId) {
    j in s.db.jobs && s.db.jobs[j].status == SendStatus.FailedPermanent && j in s.provider.cache
  }

  /** The two steps that can bring this about: a refusal is recorded on a row that is `sending` although
      the key has been accepted, or a key is put although a refusal has been recorded. */
  ghost predicate Strikes(s: State, a: Action, j: JobId) {
    && a.Step? && a.exec < |s.execs| && s.execs[a.exec].job == j && j in s.db.jobs
    && var p, status := s.execs[a.exec].phase, s.db.jobs[j].status;
       || (p.RecordingPermanent? && status == SendStatus.Sending && j in s.provider.cache)
       || (p.Putting? && status == SendStatus.FailedPermanent && j !in s.provider.cache)
  }

  lemma StepStrikes(s: State, i: nat, v: Verdict, j: JobId)
    requires i < |s.execs| && j in s.db.jobs && !Contradicts(s, j)
    ensures Contradicts(DoStep(PerStatement, s, i, v), j) <==> Strikes(s, Step(i, v), j)
  {
    var s' := DoStep(PerStatement, s, i, v);
    if s.db.jobs[j].status != SendStatus.FailedPermanent && Contradicts(s', j) {
      StepFails(PerStatement, s, i, v, j);
    }
    if s.db.jobs[j].status == SendStatus.FailedPermanent {
      StepGrows(PerStatement, s, i, v);
      assert Grows(s.db.jobs[j], s'.db.jobs[j]);
    }
  }

  lemma NextStrikes(s: State, a: Action, j: JobId)
    requires Inv(PerStatement, s)
    ensures Contradicts(Next(PerStatement, s, a), j) <==> Contradicts(s, j) || Strikes(s, a, j)
  {
    var s' := Next(PerStatement, s, a);
    NextGrows(PerStatement, s, a);
    NextKeepsCache(PerStatement, s, a);
    if Contradicts(s, j) {
      assert Grows(s.db.jobs[j], s'.db.jobs[j]);
    } else if a.Step? && a.exec < |s.execs| {
      if j in s.db.jobs {
        StepStrikes(s, a.exec, a.verdict, j);
      } else {
        StepDb(PerStatement, s, a.exec, a.verdict);
      }
    } else {
      OthersContradictNot(s, a, j);
    }
  }

  lemma OthersContradictNot(s: State, a: Action, j: JobId)
    requires !Contradicts(s, j) && !(a.Step? && a.exec < |s.execs|)
    ensures !Contradicts(Next(PerStatement, s, a), j)
  {
    if a.Process? || a.Sweep? {
      ProcessKeepsIdentity(s.db, a.id, s.now);
    }
  }

  ghost predicate StrikesIn(now: real, acts: seq<Action>, j: JobId) {
    exists n :: 0 <= n < |acts| && Strikes(Run(PerStatement, Init(now), acts[..n]), acts[n], j)
  }

  /** With every store call durable at once, a job ends up failed for good although its message is out
      if and only if some step of the run strikes: these two guards are the only way. */
  lemma {:induction false} FailedYetAcceptedIff(now: real, acts: seq<Action>, j: JobId)
    ensures Contradicts(Run(PerStatement, Init(now), acts), j) <==> StrikesIn(now, acts, j)
  {
    if acts != [] {
      var init, a := acts[..|acts| - 1], acts[|acts| - 1];
      var s := Run(PerStatement, Init(now), init);
      FailedYetAcceptedIff(now, init, j);
      assert Reachable(PerStatement, s);
      ReachableInv(PerStatement, s);
      NextStrikes(s, a, j);
      StrikesInOneMore(now, acts, j);
    }
  }

  lemma StrikesInOneMore(now: real, acts: seq<Action>, j: JobId)
    requires acts != []
    ensures var init := acts[..|acts| - 1];
            StrikesIn(now, acts, j) <==>
            StrikesIn(now, init, j) || Strikes(Run(PerStatement, Init(now), init), acts[|acts| - 1], j)
  {
    var init := acts[..|acts| - 1];
    forall n | 0 <= n < |init| ensures init[..n] == acts[..n] && init[n] == acts[n] {
    }
    if StrikesIn(now, init, j) {
      var n :| 0 <= n < |init| && Strikes(Run(PerStatement, Init(now), init[..n]), init[n], j);
      assert Strikes(Run(PerStatement, Init(now), acts[..n]), acts[n], j);
    }
  }

  // ---- and one execution of a job at a time is enough to prevent it ----

  /** No two executions of j are between their claim and their end. */
  ghost predicate Alone(s: State, j: JobId) {
    forall i, k :: 0 <= i < k < |s.execs| && s.execs[i].job == j == s.execs[k].job ==>
        !InFlight(s.execs[i].phase) || !InFlight(s.execs[k].phase)
  }

  /** An execution of j in flight owns a `sending` row, and one that may yet be refused an unused key. */
  ghost predicate Owns(s: State, e: SendExec, j: JobId) {
    e.job == j && InFlight(e.phase) ==> j in s.db.jobs && s.db.jobs[j].status == SendStatus.Sending && Unaccepted(s, e)
  }

  ghost predicate OneOwner(s: State, j: JobId) {
    (forall i :: 0 <= i < |s.execs| ==> Owns(s, s.execs[i], j)) && FailedUnaccepted(s, j)
  }

  ghost predicate SameMatter(s: State, s': State, j: JobId) {
    && (j in s'.db.jobs <==> j in s.db.jobs) && (j in s.provider.cache <==> j in s'.provider.cache)
    && (j in s.db.jobs ==> s'.db.jobs[j].status == s.db.jobs[j].status)
  }

  /** Whoever leaves the row and the key of j alone keeps this, whatever phases others are in. */
  lemma SameMatterOwned(s: State, s': State, j: JobId)
    requires OneOwner(s, j) && SameMatter(s, s', j)
    requires forall i :: 0 <= i < |s'.execs| ==>
        (i < |s.execs| && s'.execs[i] == s.execs[i]) || Owns(s', s'.execs[i], j)
    ensures OneOwner(s', j)
  {
    forall i | 0 <= i < |s'.execs| ensures Owns(s', s'.execs[i], j) {
      if i < |s.execs| && s'.execs[i] == s.execs[i] {
        assert Owns(s, s.execs[i], j);
      }
    }
  }

  /** The step of an execution of j: either nobody of j was in flight, or only this one. */
  lemma OwnStepOwned(s: State, i: nat, v: Verdict, j: JobId)
    requires OneOwner(s, j) && Alone(s, j) && Alone(DoStep(PerStatement, s, i, v), j)
    requires i < |s.execs| && s.execs[i].job == j
    ensures OneOwner(DoStep(PerStatement, s, i, v), j)
  {
    var s' := DoStep(PerStatement, s, i, v);
    StepMoves(PerStatement, s, i, v);
    assert Owns(s, s.execs[i], j);
    forall k | 0 <= k < |s'.execs| ensures Owns(s', s'.execs[k], j) {
      if k == i {
        OwnPhase(s, i, v, j);
      } else {
        assert s'.execs[k] == s.execs[k] && Owns(s, s.execs[k], j);
        if s.execs[k].job == j && InFlight(s.execs[k].phase) {
          assert !InFlight(s.execs[i].phase) && !InFlight(s'.execs[i].phase);
          IdleStep(s, i, v, j);
        }
      }
    }
    OwnFailure(s, i, v, j);
  }

  /** An execution that neither is in flight nor comes to be so changes nothing about its job. */
  lemma IdleStep(s: State, i: nat, v: Verdict, j: JobId)
    requires i < |s.execs| && s.execs[i].job == j && !InFlight(s.execs[i].phase)
    requires !InFlight(DoStep(PerStatement, s, i, v).execs[i].phase)
    ensures SameMatter(s, DoStep(PerStatement, s, i, v), j)
  {
  }

  lemma OwnPhase(s: State, i: nat, v: Verdict, j: JobId)
    requires i < |s.execs| && s.execs[i].job == j && Owns(s, s.execs[i], j)
    ensures Owns(DoStep(PerStatement, s, i, v), DoStep(PerStatement, s, i, v).execs[i], j)
  {
  }

  lemma OwnFailure(s: State, i: nat, v: Verdict, j: JobId)
    requires i < |s.execs| && s.execs[i].job == j && Owns(s, s.execs[i], j) && FailedUnaccepted(s, j)
    ensures FailedUnaccepted(DoStep(PerStatement, s, i, v), j)
  {
  }

  lemma OtherStepOwned(s: State, i: nat, v: Verdict, j: JobId)
    requires OneOwner(s, j) && i < |s.execs| && s.execs[i].job != j
    ensures OneOwner(DoStep(PerStatement, s, i, v), j)
  {
    StepMoves(PerStatement, s, i, v);
    OtherMatter(s, i, v, j);
    SameMatterOwned(s, DoStep(PerStatement, s, i, v), j);
  }

  lemma OtherMatter(s: State, i: nat, v: Verdict, j: JobId)
    requires i < |s.execs| && s.execs[i].job != j
    ensures SameMatter(s, DoStep(PerStatement, s, i, v), j)
  {
  }

  lemma NextOwned(s: State, a: Action, j: JobId)
    requires OneOwner(s, j) && Alone(s, j) && Alone(Next(PerStatement, s, a), j)
    ensures OneOwner(Next(PerStatement, s, a), j)
  {
    match a
    case Step(i, v) =>
      if i < |s.execs| && s.execs[i].job == j {
        OwnStepOwned(s, i, v, j);
      } else if i < |s.execs| {
        OtherStepOwned(s, i, v, j);
      }
    case Timeout(_, _) => PhasesOwned(s, a, j);
    case Abort(_, _) => PhasesOwned(s, a, j);
    case Crash(_) => PhasesOwned(s, a, j);
    case Start(_) => PhasesOwned(s, a, j);
    case _ => TablesOwned(s, a, j);
  }

  lemma PhasesOwned(s: State, a: Action, j: JobId)
    requires OneOwner(s, j) && (a.Abort? || a.Timeout? || a.Crash? || a.Start?)
    ensures OneOwner(Next(PerStatement, s, a), j)
  {
    assert forall i :: 0 <= i < |s.execs| ==> Owns(s, s.execs[i], j);
    SameMatterOwned(s, Next(PerStatement, s, a), j);
  }

  /** Cancelling moves queued rows only, inserting no row there is, and webhooks no send status. */
  lemma TablesOwned(s: State, a: Action, j: JobId)
    requires OneOwner(s, j)
    requires a.Tick? || a.InsertJob? || a.CancelJob? || a.Ingest? || a.Process? || a.Sweep?
    ensures OneOwner(Next(PerStatement, s, a), j)
  {
    var s' := Next(PerStatement, s, a);
    if a.Process? || a.Sweep? {
      ProcessKeepsIdentity(s.db, a.id, s.now);
    }
    forall i | 0 <= i < |s'.execs| ensures Owns(s', s'.execs[i], j) {
      assert Owns(s, s.execs[i], j);
    }
  }

  ghost predicate AlwaysAlone(now: real, acts: seq<Action>, j: JobId) {
    forall n :: 0 <= n <= |acts| ==> Alone(Run(PerStatement, Init(now), acts[..n]), j)
  }

  lemma {:induction false} RunOwned(now: real, acts: seq<Action>, j: JobId)
    requires AlwaysAlone(now, acts, j)
    ensures OneOwner(Run(PerStatement, Init(now), acts), j)
  {
    if acts != [] {
      var init := acts[..|acts| - 1];
      forall n | 0 <= n <= |init| ensures init[..n] == acts[..n] {
      }
      RunOwned(now, init, j);
      assert acts[..|acts|] == acts;
      NextOwned(Run(PerStatement, Init(now), init), acts[|acts| - 1], j);
    }
  }

  /** With every store call durable at once, a caller who sees to it that no two executions of a job are
      in flight together, whoever crashes, aborts or times out, never has it fail for good with its
      message out. */
  lemma AloneNeverContradicts(now: real, acts: seq<Action>, j: JobId)
    requires AlwaysAlone(now, acts, j)
    ensures !Contradicts(Run(PerStatement, Init(now), acts), j)
  {
    RunOwned(now, acts, j);
  }

  const REFUSED_AFTER_ACCEPTED: seq<Action> := OVERTAKEN_RECORD[..9] + [Step(1, Invalid), Step(1, Accept)]

  /** It does happen: two executions of one job both miss, the provider accepts the first and refuses the
      second, and the refusal is recorded. */
  lemma FailedYetAccepted()
    ensures Contradicts(Run(PerStatement, Init(0.0), REFUSED_AFTER_ACCEPTED), 7)
  {
    var s9 := Run(PerStatement, Init(0.0), OVERTAKEN_RECORD[..9]);
    OneAccepted();
    RunConcat(PerStatement, Init(0.0), OVERTAKEN_RECORD[..9], [Step(1, Invalid), Step(1, Accept)]);
    RunPair(PerStatement, s9, Step(1, Invalid), Step(1, Accept));
    RefusalLands(s9);
  }

  lemma RefusalLands(s: State)
    requires |s.execs| == 2 && s.execs[1] == SendExec(7, Trying) && 7 in s.provider.cache
    requires s.db.jobs == map[7 := SendingJob()]
    ensures Contradicts(DoStep(PerStatement, DoStep(PerStatement, s, 1, Invalid), 1, Accept), 7)
  {
    var s1 := DoRoll(s, 1, Invalid);
    assert DoStep(PerStatement, s, 1, Invalid) == s1;
    assert s1.execs[1] == SendExec(7, RecordingPermanent("invalid recipient")) && s1.db == s.db;
    assert DoStep(PerStatement, s1, 1, Accept) == DoRecordPermanent(PerStatement, s1, 1, "invalid recipient");
  }
}
