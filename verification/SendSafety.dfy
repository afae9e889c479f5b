/** What every reachable state of the send machine satisfies, at either granularity. */
module SendSafety {
  import opened Prelude
  import opened Transitions
  import opened Models
  import opened JobStore
  import opened Webhooks
  import opened Convergence
  import opened FakeProvider
  import opened Worker
  import opened SendMachine

  // ---- the invariant, part by part ----

  ghost predicate JobOk(g: Granularity, s: State, j: JobId)
    requires j in s.db.jobs
  {
    var r := s.db.jobs[j];
    && (r.mid.Some? <==> r.status == SendStatus.Sent)
    && (r.status == SendStatus.Sent ==>
          j in s.provider.cache && r.mid == Some(s.provider.cache[j].mid) && r.sentAt == Some(s.provider.cache[j].at))
    && (r.delivery.Some? || r.opens > 0 || r.clicks > 0 ==> r.status == SendStatus.Sent)
    && (g.PerStatement? && j in s.claimed ==>
          r.status !in {SendStatus.Queued, SendStatus.Cancelled, SendStatus.Skipped})
  }

  ghost predicate ProviderOk(s: State) {
    && s.provider.providerSends == |s.provider.cache|
    && (forall k :: k in s.provider.cache ==> s.provider.cache[k].mid == Msg(k) && k in s.claimed)
  }

  ghost predicate RepliesOk(s: State) {
    && (forall n :: 0 <= n < |s.replies| ==>
          var r := s.replies[n]; r.key in s.provider.cache && s.provider.cache[r.key] == Entry(r.mid, r.at))
    && (forall n, m :: 0 <= n < m < |s.replies| && s.replies[n].key == s.replies[m].key ==> s.replies[m].replay)
  }

  predicate Terminal(d: Db, j: JobId) {
    j in d.jobs && d.jobs[j].status in SEND_TERMINAL
  }

  ghost predicate ExecOk(g: Granularity, s: State, e: SendExec) {
    var j := e.job;
    && (InFlight(e.phase) ==>
          && j in s.db.jobs && j in s.claimed && !e.phase.Recovering?
          && (g.PerTransaction? ==> s.db.jobs[j].status in CLAIMABLE))
    && (e.phase.Yielding? ==> j in s.provider.cache)
    && (e.phase.Recording? ==> j in s.provider.cache && s.provider.cache[j] == Entry(e.phase.mid, e.phase.at))
    && (e.phase.ReadingBack? ==> j !in s.db.jobs || Terminal(s.db, j))
    && (g.PerTransaction? && e.phase == Ended(Returned) ==> Terminal(s.db, j))
    && (g.PerTransaction? && e.phase.Ended? && e.phase.outcome.RaisedPermanent? ==>
          j !in s.db.jobs || s.db.jobs[j].status == SendStatus.FailedPermanent)
  }

  /** The row lock: with one commit at the end, executions on one job are serialised. */
  ghost predicate Serialised(g: Granularity, s: State) {
    g.PerTransaction? ==>
      forall i, k :: 0 <= i < k < |s.execs| && InFlight(s.execs[i].phase) && InFlight(s.execs[k].phase) ==>
          s.execs[i].job != s.execs[k].job
  }

  ghost predicate LogJobsExist(d: Db) {
    forall n :: 0 <= n < |d.engagements| ==> d.engagements[n].job in d.jobs
  }

  ghost predicate Core(g: Granularity, s: State) {
    && (forall j :: j in s.db.jobs ==> JobOk(g, s, j))
    && ProviderOk(s) && RepliesOk(s)
    && (forall i :: 0 <= i < |s.execs| ==> ExecOk(g, s, s.execs[i]))
    && Serialised(g, s)
  }

  ghost predicate LogInv(d: Db) {
    Agrees(d) && LogJobsExist(d)
  }

  ghost predicate Inv(g: Granularity, s: State) {
    Core(g, s) && LogInv(s.db)
  }

  // ---- what one statement may do to what the others rely on ----

  /** From s to s' nothing that another execution relies on is lost. `mine` is the job of the acting
      execution, if any: only its row may move, and only along the send axis. */
  ghost predicate Respects(g: Granularity, s: State, s': State, mine: Option<JobId>) {
    && s.db.jobs.Keys <= s'.db.jobs.Keys
    && (forall k :: k in s'.db.jobs && k !in s.db.jobs ==> forall i :: 0 <= i < |s.execs| ==> s.execs[i].job != k)
    && (forall k :: Terminal(s.db, k) ==> s'.db.jobs[k].status == s.db.jobs[k].status)
    && (g.PerTransaction? ==> forall k :: k in s.db.jobs && Locked(s, k) && mine != Some(k) ==>
          s'.db.jobs[k].status == s.db.jobs[k].status)
    && s.claimed <= s'.claimed
    && (forall k :: k in s.provider.cache ==> k in s'.provider.cache && s'.provider.cache[k] == s.provider.cache[k])
  }

  lemma OtherExecOk(g: Granularity, s: State, s': State, mine: Option<JobId>, k: nat)
    requires Respects(g, s, s', mine) && k < |s.execs| && ExecOk(g, s, s.execs[k])
    requires g.PerTransaction? && InFlight(s.execs[k].phase) ==> mine != Some(s.execs[k].job)
    ensures ExecOk(g, s', s.execs[k])
  {
    if InFlight(s.execs[k].phase) {
      assert Locked(s, s.execs[k].job);
    }
  }

  /** The executions after i has moved to phase p. */
  lemma MovedExecsOk(g: Granularity, s: State, s': State, i: nat, p: Phase)
    requires Core(g, s) && i < |s.execs|
    requires s'.execs == s.execs[i := s.execs[i].(phase := p)]
    requires Respects(g, s, s', Some(s.execs[i].job))
    requires ExecOk(g, s', SendExec(s.execs[i].job, p))
    requires InFlight(p) ==> InFlight(s.execs[i].phase) || (g.PerTransaction? ==> !Locked(s, s.execs[i].job))
    requires InFlight(s.execs[i].phase) || (g.PerTransaction? ==> !Locked(s, s.execs[i].job)) ||
        Respects(g, s, s', None)
    ensures forall k :: 0 <= k < |s'.execs| ==> ExecOk(g, s', s'.execs[k])
    ensures Serialised(g, s')
  {
    forall k | 0 <= k < |s'.execs| && k != i ensures ExecOk(g, s', s'.execs[k]) {
      if s.execs[k].job == s.execs[i].job && InFlight(s.execs[k].phase) && g.PerTransaction? {
        assert Locked(s, s.execs[i].job);
        assert !InFlight(s.execs[i].phase);
        OtherExecOk(g, s, s', None, k);
      } else {
        OtherExecOk(g, s, s', Some(s.execs[i].job), k);
      }
    }
  }

  /** Job rows stay in order when only j's moves on the send axis and nothing the provider knew is lost. */
  lemma OtherJobsOk(g: Granularity, s: State, s': State, j: JobId)
    requires forall k :: k in s.db.jobs ==> JobOk(g, s, k)
    requires s'.db.jobs.Keys == s.db.jobs.Keys && forall k :: k in s.db.jobs && k != j ==> s'.db.jobs[k] == s.db.jobs[k]
    requires s.claimed <= s'.claimed <= s.claimed + {j}
    requires forall k :: k in s.provider.cache ==> k in s'.provider.cache && s'.provider.cache[k] == s.provider.cache[k]
    requires j in s'.db.jobs ==> JobOk(g, s', j)
    ensures forall k :: k in s'.db.jobs ==> JobOk(g, s', k)
  {
    forall k | k in s'.db.jobs ensures JobOk(g, s', k) {
      if k != j {
        assert JobOk(g, s, k);
      }
    }
  }

  // ---- the statements of one execution ----

  /** An execution that has, or may take, the lock on its job rewrites that row and moves on. */
  lemma RowMoves(g: Granularity, s: State, s': State, i: nat, p: Phase, r': EmailJob)
    requires Core(g, s) && i < |s.execs| && s.execs[i].job in s.db.jobs
    requires s' == Move(s, i, p).(db := s'.db, claimed := s'.claimed) && s'.db.jobs == s.db.jobs[s.execs[i].job := r']
    requires s.claimed <= s'.claimed <= s.claimed + {s.execs[i].job}
    requires JobOk(g, s', s.execs[i].job) && ExecOk(g, s', SendExec(s.execs[i].job, p))
    requires Terminal(s.db, s.execs[i].job) ==> r'.status == s.db.jobs[s.execs[i].job].status
    requires InFlight(s.execs[i].phase) || (g.PerTransaction? ==> !Locked(s, s.execs[i].job))
    ensures Core(g, s')
  {
    OtherJobsOk(g, s, s', s.execs[i].job);
    MovedExecsOk(g, s, s', i, p);
  }

  lemma ClaimCore(g: Granularity, s: State, i: nat)
    requires Core(g, s) && i < |s.execs| && s.execs[i].phase.Claiming?
    ensures Core(g, DoClaim(g, s, i))
  {
    var s' := DoClaim(g, s, i);
    var j := s.execs[i].job;
    if g.PerTransaction? && Locked(s, j) {
    } else if j in s.db.jobs && s.db.jobs[j].status in CLAIMABLE {
      assert JobOk(g, s, j);
      assert s.db.jobs == s.db.jobs[j := s.db.jobs[j]];
      RowMoves(g, s, s', i, Looking, s'.db.jobs[j]);
    } else {
      ReadingBackCore(g, s, i);
    }
  }

  lemma ReadingBackCore(g: Granularity, s: State, i: nat)
    requires Core(g, s) && i < |s.execs| && s.execs[i].phase.Claiming?
    requires s.execs[i].job !in s.db.jobs || s.db.jobs[s.execs[i].job].status !in CLAIMABLE
    ensures Core(g, Move(s, i, ReadingBack))
  {
    var s' := Move(s, i, ReadingBack);
    if s.execs[i].job in s.db.jobs {
      assert JobOk(g, s, s.execs[i].job);
    }
    OtherJobsOk(g, s, s', s.execs[i].job);
    MovedExecsOk(g, s, s', i, ReadingBack);
  }

  lemma ReadBackCore(g: Granularity, s: State, i: nat)
    requires Core(g, s) && i < |s.execs| && s.execs[i].phase.ReadingBack?
    ensures Core(g, DoReadBack(s, i))
  {
    var s' := DoReadBack(s, i);
    assert ExecOk(g, s, s.execs[i]);
    OtherJobsOk(g, s, s', s.execs[i].job);
    MovedExecsOk(g, s, s', i, s'.execs[i].phase);
  }

  lemma LookCore(g: Granularity, s: State, i: nat)
    requires Core(g, s) && i < |s.execs| && s.execs[i].phase.Looking?
    ensures Core(g, DoLook(s, i))
  {
    var s' := DoLook(s, i);
    assert ExecOk(g, s, s.execs[i]) && JobOk(g, s, s.execs[i].job);
    OtherJobsOk(g, s, s', s.execs[i].job);
    MovedExecsOk(g, s, s', i, s'.execs[i].phase);
  }

  lemma RollCore(g: Granularity, s: State, i: nat, v: Verdict)
    requires Core(g, s) && i < |s.execs| && s.execs[i].phase.Trying?
    ensures Core(g, DoRoll(s, i, v))
  {
    var s' := DoRoll(s, i, v);
    assert ExecOk(g, s, s.execs[i]) && JobOk(g, s, s.execs[i].job);
    OtherJobsOk(g, s, s', s.execs[i].job);
    MovedExecsOk(g, s, s', i, s'.execs[i].phase);
  }

  lemma PutCore(g: Granularity, s: State, i: nat, at: real)
    requires Core(g, s) && i < |s.execs| && s.execs[i].phase == Putting(at)
    ensures Core(g, DoPut(s, i, at))
  {
    var s' := DoPut(s, i, at);
    var j := s.execs[i].job;
    assert ExecOk(g, s, s.execs[i]) && JobOk(g, s, j);
    OtherJobsOk(g, s, s', j);
    MovedExecsOk(g, s, s', i, s'.execs[i].phase);
  }

  lemma YieldCore(g: Granularity, s: State, i: nat)
    requires Core(g, s) && i < |s.execs| && s.execs[i].phase.Yielding?
    ensures Core(g, DoYield(s, i))
  {
    var s' := DoYield(s, i);
    assert ExecOk(g, s, s.execs[i]) && JobOk(g, s, s.execs[i].job);
    OtherJobsOk(g, s, s', s.execs[i].job);
    MovedExecsOk(g, s, s', i, s'.execs[i].phase);
  }

  lemma RecordCore(g: Granularity, s: State, i: nat, m: MessageId, at: real)
    requires Core(g, s) && i < |s.execs| && s.execs[i].phase == Recording(m, at)
    ensures Core(g, DoRecord(g, s, i, m, at))
  {
    var s' := DoRecord(g, s, i, m, at);
    var j := s.execs[i].job;
    assert ExecOk(g, s, s.execs[i]) && JobOk(g, s, j);
    assert s'.db.jobs == s.db.jobs[j := s'.db.jobs[j]];
    RowMoves(g, s, s', i, Ended(Returned), s'.db.jobs[j]);
  }

  lemma RecordTransientCore(g: Granularity, s: State, i: nat, error: string)
    requires Core(g, s) && i < |s.execs| && s.execs[i].phase == RecordingTransient(error)
    ensures Core(g, DoRecordTransient(g, s, i, error))
  {
    var s' := DoRecordTransient(g, s, i, error);
    var j := s.execs[i].job;
    assert ExecOk(g, s, s.execs[i]) && JobOk(g, s, j);
    assert s'.db.jobs == s.db.jobs[j := s'.db.jobs[j]];
    RowMoves(g, s, s', i, Ended(RaisedTransient(error)), s'.db.jobs[j]);
  }

  lemma RecordPermanentCore(g: Granularity, s: State, i: nat, error: string)
    requires Core(g, s) && i < |s.execs| && s.execs[i].phase == RecordingPermanent(error)
    ensures Core(g, DoRecordPermanent(g, s, i, error))
  {
    var j := s.execs[i].job;
    assert ExecOk(g, s, s.execs[i]) && JobOk(g, s, j);
    var r' := MarkPermanentRow(if g.PerTransaction? then ClaimRow(s.db.jobs[j]) else s.db.jobs[j]);
    RefusedCore(g, s, DoRecordPermanent(g, s, i, error), i, error, r');
  }

  lemma RefusedCore(g: Granularity, s: State, s': State, i: nat, error: string, r': EmailJob)
    requires Core(g, s) && i < |s.execs| && InFlight(s.execs[i].phase) && s.execs[i].job in s.db.jobs
    requires s' == Move(s, i, Ended(RaisedPermanent(error))).(db := s'.db)
    requires s'.db.jobs == s.db.jobs[s.execs[i].job := r'] && s.execs[i].job in s.claimed
    requires var r := s.db.jobs[s.execs[i].job]; r' == MarkPermanentRow(if g.PerTransaction? then ClaimRow(r) else r)
    requires g.PerTransaction? ==> s.db.jobs[s.execs[i].job].status in CLAIMABLE
    ensures Core(g, s')
  {
    assert JobOk(g, s, s.execs[i].job);
    RowMoves(g, s, s', i, Ended(RaisedPermanent(error)), r');
  }

  lemma AbortCore(g: Granularity, s: State, i: nat, error: string)
    requires Core(g, s)
    ensures Core(g, DoAbort(g, s, i, error))
  {
    if i < |s.execs| && !s.execs[i].phase.Ended? && !s.execs[i].phase.Gone? {
      var d := if InFlight(s.execs[i].phase) then Session(g, s.db, s.execs[i].job) else s.db;
      AbortedCore(g, s, Move(s, i, Ended(RaisedOther(error))).(db := d), i, error);
    }
  }

  lemma AbortedCore(g: Granularity, s: State, s': State, i: nat, error: string)
    requires Core(g, s) && i < |s.execs|
    requires s' == Move(s, i, Ended(RaisedOther(error))).(db := s'.db)
    requires s'.db == s.db || (InFlight(s.execs[i].phase) && s'.db == Session(g, s.db, s.execs[i].job))
    ensures Core(g, s')
  {
    assert ExecOk(g, s, s.execs[i]);
    if s'.db == s.db {
      AbortedIdle(g, s, s', i, error);
    } else {
      AbortedClaim(g, s, s', i, error);
    }
  }

  lemma AbortedIdle(g: Granularity, s: State, s': State, i: nat, error: string)
    requires Core(g, s) && i < |s.execs| && s' == Move(s, i, Ended(RaisedOther(error)))
    ensures Core(g, s')
  {
    SameJobsOk(g, s, s');
    MovedExecsOk(g, s, s', i, Ended(RaisedOther(error)));
  }

  lemma SameJobsOk(g: Granularity, s: State, s': State)
    requires forall k :: k in s.db.jobs ==> JobOk(g, s, k)
    requires s'.db == s.db && s'.provider == s.provider && s'.claimed == s.claimed
    ensures forall k :: k in s'.db.jobs ==> JobOk(g, s', k)
  {
    forall k | k in s'.db.jobs ensures JobOk(g, s', k) {
      assert JobOk(g, s, k);
    }
  }

  /** The commit makes a bare claim durable: the row becomes `sending`. */
  lemma AbortedClaim(g: Granularity, s: State, s': State, i: nat, error: string)
    requires Core(g, s) && i < |s.execs| && InFlight(s.execs[i].phase) && g.PerTransaction?
    requires s' == Move(s, i, Ended(RaisedOther(error))).(db := Session(g, s.db, s.execs[i].job))
    requires ExecOk(g, s, s.execs[i])
    ensures Core(g, s')
  {
    var j := s.execs[i].job;
    assert JobOk(g, s, j);
    RowMoves(g, s, s', i, Ended(RaisedOther(error)), ClaimRow(s.db.jobs[j]));
  }

  lemma TimeoutCore(g: Granularity, s: State, i: nat, error: string)
    requires Core(g, s)
    ensures Core(g, DoTimeout(s, i, error))
  {
    if i < |s.execs| && s.execs[i].phase.Recording? {
      var s' := DoTimeout(s, i, error);
      assert ExecOk(g, s, s.execs[i]) && JobOk(g, s, s.execs[i].job);
      OtherJobsOk(g, s, s', s.execs[i].job);
      MovedExecsOk(g, s, s', i, RecordingTransient(error));
    }
  }

  lemma CrashCore(g: Granularity, s: State, i: nat)
    requires Core(g, s)
    ensures Core(g, DoCrash(s, i))
  {
    if i < |s.execs| {
      var s' := DoCrash(s, i);
      OtherJobsOk(g, s, s', s.execs[i].job) by {
        if s.execs[i].job in s.db.jobs { assert JobOk(g, s, s.execs[i].job); }
      }
      MovedExecsOk(g, s, s', i, Gone);
    }
  }

  lemma StepCore(g: Granularity, s: State, i: nat, v: Verdict)
    requires Core(g, s)
    ensures Core(g, DoStep(g, s, i, v))
  {
    if i < |s.execs| {
      assert ExecOk(g, s, s.execs[i]);
      match s.execs[i].phase
      case Claiming => ClaimCore(g, s, i);
      case ReadingBack => ReadBackCore(g, s, i);
      case Recovering(m) =>
      case Looking => LookCore(g, s, i);
      case Trying => RollCore(g, s, i, v);
      case Putting(at) => PutCore(g, s, i, at);
      case Yielding => YieldCore(g, s, i);
      case Recording(m, at) => RecordCore(g, s, i, m, at);
      case RecordingTransient(e) => RecordTransientCore(g, s, i, e);
      case RecordingPermanent(e) => RecordPermanentCore(g, s, i, e);
      case Ended(_) =>
      case Gone =>
    }
  }

  // ---- everybody else ----

  lemma EnvironmentCore(g: Granularity, s: State, s': State)
    requires Core(g, s) && Respects(g, s, s', None)
    requires s' == s.(db := s'.db, now := s'.now)
    requires forall j :: j in s'.db.jobs ==> JobOk(g, s', j)
    ensures Core(g, s')
  {
    forall k | 0 <= k < |s.execs| ensures ExecOk(g, s', s.execs[k]) {
      OtherExecOk(g, s, s', None, k);
    }
  }

  lemma InsertJobCore(g: Granularity, s: State, j: JobId, campaign: nat, toAddr: string)
    requires Core(g, s) && forall k :: k in s.claimed ==> k in s.db.jobs
    ensures Core(g, DoInsertJob(s, j, campaign, toAddr))
  {
    var s' := DoInsertJob(s, j, campaign, toAddr);
    forall k | k in s'.db.jobs ensures JobOk(g, s', k) {
      if k in s.db.jobs {
        assert JobOk(g, s, k);
      }
    }
    EnvironmentCore(g, s, s');
  }

  lemma CancelJobCore(g: Granularity, s: State, j: JobId)
    requires Core(g, s)
    ensures Core(g, DoCancelJob(g, s, j))
  {
    var s' := DoCancelJob(g, s, j);
    forall k | k in s'.db.jobs ensures JobOk(g, s', k) {
      assert JobOk(g, s, k);
    }
    if s'.db != s.db {
      EnvironmentCore(g, s, s');
    }
  }

  /** A webhook may only touch the webhooks' half of a row that has a message id. */
  lemma WebhookCore(g: Granularity, s: State, s': State)
    requires Core(g, s) && s' == s.(db := s'.db)
    requires s'.db.jobs.Keys == s.db.jobs.Keys
    requires forall j :: j in s.db.jobs ==> SameSendAxis(s.db.jobs[j], s'.db.jobs[j])
    requires forall j :: j in s.db.jobs && s'.db.jobs[j] != s.db.jobs[j] ==> s.db.jobs[j].mid.Some?
    ensures Core(g, s')
  {
    forall k | k in s'.db.jobs ensures JobOk(g, s', k) {
      assert JobOk(g, s, k);
    }
    EnvironmentCore(g, s, s');
  }

  lemma ProcessCore(g: Granularity, s: State, e: EventId)
    requires Core(g, s)
    ensures Core(g, s.(db := ProcessEvent(s.db, e, s.now).0))
  {
    ProcessKeepsIdentity(s.db, e, s.now);
    WebhookCore(g, s, s.(db := ProcessEvent(s.db, e, s.now).0));
  }

  lemma SweepCore(g: Granularity, s: State, e: EventId)
    requires Core(g, s)
    ensures Core(g, s.(db := SweepOne(s.db, e, s.now).0))
  {
    if e in s.db.events && s.now - s.db.events[e].receivedAt > ORPHAN_GIVE_UP_AFTER {
      WebhookCore(g, s, s.(db := SweepOne(s.db, e, s.now).0));
    } else {
      ProcessCore(g, s, e);
    }
  }

  lemma TickCore(g: Granularity, s: State, dt: real)
    requires Core(g, s)
    ensures Core(g, s.(now := s.now + dt))
  {
    var s' := s.(now := s.now + dt);
    forall k | k in s'.db.jobs ensures JobOk(g, s', k) {
      assert JobOk(g, s, k);
    }
    EnvironmentCore(g, s, s');
  }

  lemma StartCore(g: Granularity, s: State, j: JobId)
    requires Core(g, s)
    ensures Core(g, s.(execs := s.execs + [SendExec(j, Claiming)]))
  {
    var s' := s.(execs := s.execs + [SendExec(j, Claiming)]);
    forall k | k in s'.db.jobs ensures JobOk(g, s', k) {
      assert JobOk(g, s, k);
    }
    forall k | 0 <= k < |s'.execs| ensures ExecOk(g, s', s'.execs[k]) {
      if k < |s.execs| {
        assert ExecOk(g, s, s.execs[k]);
      }
    }
  }

  ghost predicate ClaimedExist(s: State) {
    forall k :: k in s.claimed ==> k in s.db.jobs
  }

  lemma NextCore(g: Granularity, s: State, a: Action)
    requires Core(g, s) && ClaimedExist(s)
    ensures Core(g, Next(g, s, a))
  {
    match a
    case Tick(dt) => ClockCore(g, s, a);
    case Start(j) => ClockCore(g, s, a);
    case Step(i, v) => StepCore(g, s, i, v);
    case Timeout(i, e) => MishapCore(g, s, a);
    case Abort(i, e) => MishapCore(g, s, a);
    case Crash(i) => MishapCore(g, s, a);
    case _ => OthersCore(g, s, a);
  }

  lemma ClockCore(g: Granularity, s: State, a: Action)
    requires Core(g, s) && (a.Tick? || a.Start?)
    ensures Core(g, Next(g, s, a))
  {
    match a
    case Tick(dt) => TickCore(g, s, dt);
    case Start(j) => StartCore(g, s, j);
  }

  lemma MishapCore(g: Granularity, s: State, a: Action)
    requires Core(g, s) && (a.Timeout? || a.Abort? || a.Crash?)
    ensures Core(g, Next(g, s, a))
  {
    match a
    case Timeout(i, e) => TimeoutCore(g, s, i, e);
    case Abort(i, e) => AbortCore(g, s, i, e);
    case Crash(i) => CrashCore(g, s, i);
  }

  lemma OthersCore(g: Granularity, s: State, a: Action)
    requires Core(g, s) && ClaimedExist(s)
    requires a.InsertJob? || a.CancelJob? || a.Ingest? || a.Process? || a.Sweep?
    ensures Core(g, Next(g, s, a))
  {
    match a
    case InsertJob(j, campaign, toAddr) => InsertJobCore(g, s, j, campaign, toAddr);
    case CancelJob(j) => CancelJobCore(g, s, j);
    case Ingest(v) => WebhookCore(g, s, s.(db := InsertEvent(s.db, v, s.now)));
    case Process(e) => ProcessCore(g, s, e);
    case Sweep(e) => SweepCore(g, s, e);
  }

  lemma NextClaimedExist(g: Granularity, s: State, a: Action)
    requires ClaimedExist(s)
    ensures ClaimedExist(Next(g, s, a))
  {
    match a
    case Step(i, v) => if i < |s.execs| { StepClaimedExist(g, s, i, v); }
    case Abort(i, e) => AbortClaimedExist(g, s, i, e);
    case _ =>
  }

  lemma StepClaimedExist(g: Granularity, s: State, i: nat, v: Verdict)
    requires ClaimedExist(s) && i < |s.execs|
    ensures ClaimedExist(DoStep(g, s, i, v))
  {
    StepDb(g, s, i, v);
    StepClaims(g, s, i, v);
  }

  lemma StepClaims(g: Granularity, s: State, i: nat, v: Verdict)
    requires i < |s.execs|
    ensures DoStep(g, s, i, v).claimed == s.claimed
            || (DoStep(g, s, i, v).claimed == s.claimed + {s.execs[i].job} && s.execs[i].job in s.db.jobs)
  {
  }

  lemma AbortClaimedExist(g: Granularity, s: State, i: nat, e: string)
    requires ClaimedExist(s)
    ensures ClaimedExist(DoAbort(g, s, i, e))
  {
  }

  /** What the next statement of an execution may have made of the database. */
  ghost predicate StepResult(g: Granularity, d: Db, j: JobId, d': Db) {
    var mine := Session(g, d, j);
    || d' == d
    || (g.PerStatement? && j in d.jobs && d' == WithRow(d, j, ClaimRow))
    || (exists m, at :: d' == MarkSent(mine, j, m, at))
    || d' == WithRow(mine, j, MarkTransientRow)
    || d' == WithRow(mine, j, MarkPermanentRow)
  }

  lemma StepDb(g: Granularity, s: State, i: nat, v: Verdict)
    requires i < |s.execs|
    ensures StepResult(g, s.db, s.execs[i].job, DoStep(g, s, i, v).db)
  {
    match s.execs[i].phase
    case Recovering(m) =>
      assert DoStep(g, s, i, v).db == MarkSent(Session(g, s.db, s.execs[i].job), s.execs[i].job, m, s.now);
    case Recording(m, at) =>
      assert DoStep(g, s, i, v).db == MarkSent(Session(g, s.db, s.execs[i].job), s.execs[i].job, m, at);
    case _ =>
  }

  // ---- the log ----

  ghost predicate SameLog(d: Db, d': Db) {
    && d'.applied == d.applied && d'.engagements == d.engagements && d'.jobs.Keys == d.jobs.Keys
    && (forall j :: j in d.jobs ==> SameDeliveryAxis(d.jobs[j], d'.jobs[j]))
    && (forall e :: e in d.events ==> e in d'.events && d'.events[e].kind == d.events[e].kind)
    && (forall e :: e in d.events && d.events[e].processedAt.Some? ==> d'.events[e].processedAt.Some?)
  }

  lemma SameLogInv(d: Db, d': Db)
    requires LogInv(d) && SameLog(d, d')
    ensures LogInv(d')
  {
    SameLogSameAgreement(d, d');
  }

  lemma SameLogAcross(a: Db, b: Db, c: Db)
    requires SameLog(a, b) && SameLog(b, c)
    ensures SameLog(a, c)
  {
    forall j | j in a.jobs ensures SameDeliveryAxis(a.jobs[j], c.jobs[j]) {
      assert SameDeliveryAxis(a.jobs[j], b.jobs[j]) && SameDeliveryAxis(b.jobs[j], c.jobs[j]);
    }
  }

  lemma SessionSameLog(g: Granularity, d: Db, j: JobId)
    ensures SameLog(d, Session(g, d, j))
  {
  }

  lemma MarkSentSameLog(d: Db, j: JobId, m: MessageId, at: real)
    ensures SameLog(d, MarkSent(d, j, m, at))
  {
  }

  lemma WithRowSameLog(d: Db, j: JobId, f: EmailJob -> EmailJob)
    requires forall r :: SameDeliveryAxis(r, f(r))
    ensures SameLog(d, WithRow(d, j, f))
  {
  }

  lemma ResultSameLog(g: Granularity, d: Db, j: JobId, d': Db)
    requires StepResult(g, d, j, d')
    ensures SameLog(d, d')
  {
    var mine := Session(g, d, j);
    SessionSameLog(g, d, j);
    WithRowSameLog(d, j, ClaimRow);
    WithRowSameLog(mine, j, MarkTransientRow);
    WithRowSameLog(mine, j, MarkPermanentRow);
    if m, at :| d' == MarkSent(mine, j, m, at) {
      MarkSentSameLog(mine, j, m, at);
    }
    if SameLog(mine, d') {
      SameLogAcross(d, mine, d');
    }
  }

  lemma StepSameLog(g: Granularity, s: State, i: nat, v: Verdict)
    ensures SameLog(s.db, DoStep(g, s, i, v).db)
  {
    if i < |s.execs| {
      StepDb(g, s, i, v);
      ResultSameLog(g, s.db, s.execs[i].job, DoStep(g, s, i, v).db);
    }
  }

  lemma WorkerSameLog(g: Granularity, s: State, a: Action)
    requires a.Tick? || a.Start? || a.Step? || a.Timeout? || a.Abort? || a.Crash? || a.CancelJob?
    ensures SameLog(s.db, Next(g, s, a).db)
  {
    match a
    case Step(i, v) => StepSameLog(g, s, i, v);
    case Abort(i, e) => if i < |s.execs| { SessionSameLog(g, s.db, s.execs[i].job); }
    case Tick(_) =>
    case Start(_) =>
    case Timeout(_, _) =>
    case Crash(_) =>
    case CancelJob(_) =>
  }

  lemma ProcessLogInv(d: Db, e: EventId, now: real)
    requires LogInv(d)
    ensures LogInv(ProcessEvent(d, e, now).0)
  {
    ProcessKeepsAgreement(d, e, now);
    ProcessKeepsLogJobs(d, e, now);
  }

  lemma ProcessKeepsLogJobs(d: Db, e: EventId, now: real)
    requires LogJobsExist(d)
    ensures LogJobsExist(ProcessEvent(d, e, now).0)
  {
    var d' := ProcessEvent(d, e, now).0;
    assert forall n :: 0 <= n < |d.engagements| ==> d'.engagements[n] == d.engagements[n];
  }

  lemma NextLogInv(g: Granularity, s: State, a: Action)
    requires LogInv(s.db)
    ensures LogInv(Next(g, s, a).db)
  {
    match a
    case Process(e) => ProcessLogInv(s.db, e, s.now);
    case Sweep(e) =>
      if IsOrphan(s.db, e) {
        SweepKeepsAgreement(s.db, e, s.now);
        ProcessLogInv(s.db, e, s.now);
      }
    case Ingest(v) => SameLogInv(s.db, Next(g, s, a).db);
    case InsertJob(j, campaign, toAddr) =>
      if Next(g, s, a) != s {
        NewJobAgrees(s.db, j, NewJob(campaign, toAddr));
      }
    case _ =>
      WorkerSameLog(g, s, a);
      SameLogInv(s.db, Next(g, s, a).db);
  }

  lemma {:induction false} RunInv(g: Granularity, s: State, acts: seq<Action>)
    requires Inv(g, s) && ClaimedExist(s)
    ensures Inv(g, Run(g, s, acts)) && ClaimedExist(Run(g, s, acts))
  {
    if acts != [] {
      var u := Run(g, s, acts[..|acts| - 1]);
      RunInv(g, s, acts[..|acts| - 1]);
      NextCore(g, u, acts[|acts| - 1]);
      NextClaimedExist(g, u, acts[|acts| - 1]);
      NextLogInv(g, u, acts[|acts| - 1]);
    }
  }

  lemma ReachableInv(g: Granularity, s: State)
    requires Reachable(g, s)
    ensures Inv(g, s) && ClaimedExist(s)
  {
    var now, acts :| s == Run(g, Init(now), acts);
    RunInv(g, Init(now), acts);
  }
}
