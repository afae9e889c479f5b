/** The main results about one shared provider and any number of crashing, interleaving senders. */
module SendTheorems {
  import opened Prelude
  import opened Transitions
  import opened Models
  import opened JobStore
  import opened Webhooks
  import opened Convergence
  import opened FakeProvider
  import opened Worker
  import opened SendMachine
  import opened SendSafety

  // ---- effectively once ----

  /** Nothing is sent twice: messages created equal keys accepted; all answers to one key carry one
      message id and one time, and at most one of them was not a replay; and a sent job holds exactly
      that id and time. */
  lemma EffectivelyOnce(g: Granularity, s: State)
    requires Reachable(g, s)
    ensures DuplicateSends(s.provider) == 0 && s.provider.providerSends == |s.provider.cache|
    ensures forall n, m :: 0 <= n < |s.replies| && 0 <= m < |s.replies| && s.replies[n].key == s.replies[m].key ==>
              && s.replies[n].mid == s.replies[m].mid && s.replies[n].at == s.replies[m].at
              && (n != m ==> s.replies[n].replay || s.replies[m].replay)
    ensures forall j :: j in s.db.jobs && s.db.jobs[j].status == SendStatus.Sent ==>
              && j in s.provider.cache
              && s.db.jobs[j].mid == Some(s.provider.cache[j].mid)
              && s.db.jobs[j].sentAt == Some(s.provider.cache[j].at)
  {
    ReachableInv(g, s);
    forall n, m | 0 <= n < |s.replies| && 0 <= m < |s.replies| && s.replies[n].key == s.replies[m].key
      ensures s.replies[n].mid == s.replies[m].mid && s.replies[n].at == s.replies[m].at
    {
      assert s.provider.cache[s.replies[n].key] == Entry(s.replies[n].mid, s.replies[n].at);
      assert s.provider.cache[s.replies[m].key] == Entry(s.replies[m].mid, s.replies[m].at);
    }
    assert forall j :: j in s.db.jobs ==> JobOk(g, s, j);
  }

  /** An accepted key stays accepted with the same entry through every crash. */
  lemma {:induction false} AcceptanceIsFinal(g: Granularity, s: State, acts: seq<Action>)
    ensures forall k :: k in s.provider.cache ==>
        k in Run(g, s, acts).provider.cache && Run(g, s, acts).provider.cache[k] == s.provider.cache[k]
  {
    if acts != [] {
      AcceptanceIsFinal(g, s, acts[..|acts| - 1]);
      NextKeepsCache(g, Run(g, s, acts[..|acts| - 1]), acts[|acts| - 1]);
    }
  }

  lemma NextKeepsCache(g: Granularity, s: State, a: Action)
    ensures forall k :: k in s.provider.cache ==>
        k in Next(g, s, a).provider.cache && Next(g, s, a).provider.cache[k] == s.provider.cache[k]
  {
  }

  // ---- the two axes ----

  /** What the webhooks own is only ever set on jobs the worker has recorded as sent; a message id is
      set exactly on those, and means the provider accepted; ids are unique; and the branch of
      send_email_task that recovers an unrecorded send is never entered. */
  lemma AxesAgree(g: Granularity, s: State)
    requires Reachable(g, s)
    ensures forall j :: j in s.db.jobs ==>
              var r := s.db.jobs[j];
              && (r.delivery.Some? || r.opens > 0 || r.clicks > 0 ==> r.status == SendStatus.Sent)
              && (r.status == SendStatus.Sent <==> r.mid.Some?)
              && (r.mid.Some? ==> j in s.provider.cache && r.mid == Some(Msg(j)))
    ensures UniqueMids(s.db.jobs)
    ensures forall i :: 0 <= i < |s.execs| ==> !s.execs[i].phase.Recovering?
  {
    ReachableInv(g, s);
    forall j | j in s.db.jobs ensures JobOk(g, s, j) {
    }
    forall i | 0 <= i < |s.execs| ensures !s.execs[i].phase.Recovering? {
      assert ExecOk(g, s, s.execs[i]);
    }
  }

  /** In every reachable state the counters, first timestamps and delivery status agree with the log. */
  lemma CacheAgreesWithLog(g: Granularity, s: State)
    requires Reachable(g, s)
    ensures Agrees(s.db)
  {
    ReachableInv(g, s);
  }

  /** In every reachable state the delivery status of a job is the last, in the order deferred, delivered,
      bounced, complained, of the kinds that have been applied to it, and none if there is none. */
  lemma StatusInEveryState(g: Granularity, s: State, j: JobId)
    requires Reachable(g, s) && j in s.db.jobs
    ensures var d, r := s.db, s.db.jobs[j];
            && (r.delivery == Some(Complained) <==> Told(d, j, EvComplained))
            && (r.delivery == Some(Bounced) <==> Told(d, j, EvBounced) && !Told(d, j, EvComplained))
            && (r.delivery in {Some(Delivered), Some(Bounced), Some(Complained)} <==>
                  Told(d, j, EvDelivered) || Told(d, j, EvBounced) || Told(d, j, EvComplained))
            && (r.delivery.Some? <==> Told(d, j, EvDeferred) || Told(d, j, EvDelivered) || Told(d, j, EvBounced)
                                      || Told(d, j, EvComplained))
  {
    ReachableInv(g, s);
    StatusByName(s.db, j);
  }

  /** Convergence over whole runs: take any two runs, at any granularity, of senders, webhooks, sweeps and
      crashes. If both have stored the same events for a message and applied them all to its job, then
      the job shows the same delivery status and counts in both. */
  lemma InterleavingsConverge(g: Granularity, s: State, h: Granularity, t: State, j: JobId, m: MessageId)
    requires Reachable(g, s) && Reachable(h, t) && j in s.db.jobs && j in t.db.jobs
    requires StoredFor(s.db, m) == StoredFor(t.db, m)
    requires forall e :: e in StoredFor(s.db, m) ==> s.db.events[e].kind == t.db.events[e].kind
    requires AppliedTo(s.db, j) == StoredFor(s.db, m) && AppliedTo(t.db, j) == StoredFor(t.db, m)
    ensures Show(s.db.jobs[j]) == Show(t.db.jobs[j])
  {
    ReachableInv(g, s);
    ReachableInv(h, t);
    SameEventsShowTheSame(s.db, t.db, j, m);
  }

  ghost predicate EdgeOrStutter(a: SendStatus, b: SendStatus) {
    a == b || CanTransitionSend(a, b)
  }

  /** One commit may contain a claim and the record that follows it, so two edges. */
  ghost predicate Legal(g: Granularity, a: SendStatus, b: SendStatus) {
    EdgeOrStutter(a, b) || (g.PerTransaction? && CanTransitionSend(a, SendStatus.Sending) &&
        CanTransitionSend(SendStatus.Sending, b))
  }

  lemma RowsFollowTheTable(r: EmailJob, m: MessageId, at: real)
    ensures EdgeOrStutter(r.status, ClaimRow(r).status) && EdgeOrStutter(r.status, CancelRow(r).status)
    ensures EdgeOrStutter(r.status, MarkSentRow(r, m, at).status)
    ensures EdgeOrStutter(r.status, MarkTransientRow(r).status) && EdgeOrStutter(r.status, MarkPermanentRow(r).status)
  {
    StatementsFollowTheTable(r, m, at);
  }

  /** Every step of every run moves every job along SEND_TRANSITIONS or not at all. */
  lemma StepsFollowTheTable(g: Granularity, s: State, a: Action, j: JobId)
    requires j in s.db.jobs
    ensures j in Next(g, s, a).db.jobs && Legal(g, s.db.jobs[j].status, Next(g, s, a).db.jobs[j].status)
  {
    match a
    case Step(i, v) => StepFollowsTheTable(g, s, i, v, j);
    case Abort(i, e) => AbortFollowsTheTable(g, s, i, e, j);
    case CancelJob(k) => CancelFollowsTheTable(g, s, k, j);
    case Process(e) => ProcessKeepsIdentity(s.db, e, s.now);
    case Sweep(e) => ProcessKeepsIdentity(s.db, e, s.now);
    case _ =>
  }

  lemma AbortFollowsTheTable(g: Granularity, s: State, i: nat, e: string, j: JobId)
    requires j in s.db.jobs
    ensures j in DoAbort(g, s, i, e).db.jobs && Legal(g, s.db.jobs[j].status, DoAbort(g, s, i, e).db.jobs[j].status)
  {
    RowsFollowTheTable(s.db.jobs[j], Msg(j), s.now);
  }

  lemma CancelFollowsTheTable(g: Granularity, s: State, k: JobId, j: JobId)
    requires j in s.db.jobs
    ensures j in DoCancelJob(g, s, k).db.jobs && Legal(g, s.db.jobs[j].status, DoCancelJob(g, s, k).db.jobs[j].status)
  {
    RowsFollowTheTable(s.db.jobs[j], Msg(j), s.now);
  }

  /** The row of an execution's job after one of its three records. */
  lemma RecordsAreLegal(g: Granularity, r: EmailJob, m: MessageId, at: real)
    ensures var mine := if g.PerTransaction? then ClaimRow(r) else r;
            && Legal(g, r.status, mine.status)
            && Legal(g, r.status, MarkSentRow(mine, m, at).status)
            && Legal(g, r.status, MarkTransientRow(mine).status)
            && Legal(g, r.status, MarkPermanentRow(mine).status)
  {
    var mine := if g.PerTransaction? then ClaimRow(r) else r;
    RowsFollowTheTable(r, m, at);
    RowsFollowTheTable(mine, m, at);
    assert r.status in CLAIMABLE ==> CanTransitionSend(r.status, SendStatus.Sending);
  }

  lemma StepFollowsTheTable(g: Granularity, s: State, i: nat, v: Verdict, j: JobId)
    requires j in s.db.jobs
    ensures j in DoStep(g, s, i, v).db.jobs && Legal(g, s.db.jobs[j].status, DoStep(g, s, i, v).db.jobs[j].status)
  {
    if i < |s.execs| {
      StepDb(g, s, i, v);
      ResultLegal(g, s.db, s.execs[i].job, DoStep(g, s, i, v).db, j);
    }
  }

  lemma ResultLegal(g: Granularity, d: Db, k: JobId, d': Db, j: JobId)
    requires j in d.jobs && StepResult(g, d, k, d')
    ensures j in d'.jobs && Legal(g, d.jobs[j].status, d'.jobs[j].status)
  {
    FailuresLegal(g, d, k, j);
    if m, at :| d' == MarkSent(Session(g, d, k), k, m, at) {
      RecordLegal(g, d, k, m, at, j);
    }
  }

  lemma FailuresLegal(g: Granularity, d: Db, k: JobId, j: JobId)
    requires j in d.jobs
    ensures j in WithRow(d, k, ClaimRow).jobs && Legal(g, d.jobs[j].status, WithRow(d, k, ClaimRow).jobs[j].status)
    ensures var mine := Session(g, d, k);
            && j in mine.jobs && Legal(g, d.jobs[j].status, WithRow(mine, k, MarkTransientRow).jobs[j].status)
            && Legal(g, d.jobs[j].status, WithRow(mine, k, MarkPermanentRow).jobs[j].status)
  {
    RowsFollowTheTable(d.jobs[j], Msg(j), 0.0);
    RecordsAreLegal(g, d.jobs[j], Msg(j), 0.0);
  }

  lemma RecordLegal(g: Granularity, d: Db, k: JobId, m: MessageId, at: real, j: JobId)
    requires j in d.jobs
    ensures j in MarkSent(Session(g, d, k), k, m, at).jobs
    ensures Legal(g, d.jobs[j].status, MarkSent(Session(g, d, k), k, m, at).jobs[j].status)
  {
    RecordsAreLegal(g, d.jobs[j], m, at);
  }

  // ---- what is never undone ----

  /** The facts about a job that no run takes back. */
  ghost predicate Grows(a: EmailJob, b: EmailJob) {
    && (a.status in SEND_TERMINAL ==> b.status == a.status)
    && DeliveryRank(a.delivery) <= DeliveryRank(b.delivery)
    && a.opens <= b.opens && a.clicks <= b.clicks
    && (a.firstOpened.Some? ==> b.firstOpened == a.firstOpened)
    && (a.firstClicked.Some? ==> b.firstClicked == a.firstClicked)
    && (a.status == SendStatus.Sent ==> b.mid == a.mid && b.sentAt == a.sentAt)
    && a.campaign == b.campaign
  }

  ghost predicate AllGrow(d: Db, d': Db) {
    forall j :: j in d.jobs ==> j in d'.jobs && Grows(d.jobs[j], d'.jobs[j])
  }

  lemma NextGrows(g: Granularity, s: State, a: Action)
    ensures AllGrow(s.db, Next(g, s, a).db)
  {
    if a.Step? || a.Abort? || a.CancelJob? {
      SendAxisGrows(g, s, a);
    } else if a.Process? || a.Sweep? {
      WebhooksGrow(g, s, a);
    } else {
      RestGrows(g, s, a);
    }
  }

  lemma SendAxisGrows(g: Granularity, s: State, a: Action)
    requires a.Step? || a.Abort? || a.CancelJob?
    ensures AllGrow(s.db, Next(g, s, a).db)
  {
    match a
    case Step(i, v) => StepGrows(g, s, i, v);
    case Abort(i, e) => AbortGrows(g, s, i, e);
    case CancelJob(j) => WithRowGrows(s.db, j, CancelRow);
  }

  lemma WebhooksGrow(g: Granularity, s: State, a: Action)
    requires a.Process? || a.Sweep?
    ensures AllGrow(s.db, Next(g, s, a).db)
  {
    ProcessGrows(s.db, a.id, s.now);
  }

  lemma RestGrows(g: Granularity, s: State, a: Action)
    requires !a.Step? && !a.Abort? && !a.CancelJob? && !a.Process? && !a.Sweep?
    ensures AllGrow(s.db, Next(g, s, a).db)
  {
    if a.InsertJob? {
      InsertGrows(s, a.job, a.campaign, a.toAddr);
    }
  }

  lemma AbortGrows(g: Granularity, s: State, i: nat, e: string)
    ensures AllGrow(s.db, DoAbort(g, s, i, e).db)
  {
    if i < |s.execs| {
      SessionGrows(g, s.db, s.execs[i].job);
    }
  }

  lemma InsertGrows(s: State, j: JobId, campaign: nat, toAddr: string)
    ensures AllGrow(s.db, DoInsertJob(s, j, campaign, toAddr).db)
  {
  }

  lemma ProcessGrows(d: Db, e: EventId, now: real)
    ensures AllGrow(d, ProcessEvent(d, e, now).0) && AllGrow(d, SweepOne(d, e, now).0)
  {
  }

  lemma SessionGrows(g: Granularity, d: Db, j: JobId)
    ensures AllGrow(d, Session(g, d, j))
  {
  }

  lemma MarkSentGrows(d: Db, j: JobId, m: MessageId, at: real)
    ensures AllGrow(d, MarkSent(d, j, m, at))
  {
  }

  lemma WithRowGrows(d: Db, j: JobId, f: EmailJob -> EmailJob)
    requires forall r :: Grows(r, f(r))
    ensures AllGrow(d, WithRow(d, j, f))
  {
  }

  lemma GrowsAcross(a: Db, b: Db, c: Db)
    requires AllGrow(a, b) && AllGrow(b, c)
    ensures AllGrow(a, c)
  {
    forall j | j in a.jobs ensures j in c.jobs && Grows(a.jobs[j], c.jobs[j]) {
      assert Grows(a.jobs[j], b.jobs[j]) && Grows(b.jobs[j], c.jobs[j]);
    }
  }

  lemma ResultGrows(g: Granularity, d: Db, j: JobId, d': Db)
    requires StepResult(g, d, j, d')
    ensures AllGrow(d, d')
  {
    var mine := Session(g, d, j);
    SessionGrows(g, d, j);
    WithRowGrows(d, j, ClaimRow);
    WithRowGrows(mine, j, MarkTransientRow);
    WithRowGrows(mine, j, MarkPermanentRow);
    if m, at :| d' == MarkSent(mine, j, m, at) {
      MarkSentGrows(mine, j, m, at);
    }
    if AllGrow(mine, d') {
      GrowsAcross(d, mine, d');
    }
  }

  lemma StepGrows(g: Granularity, s: State, i: nat, v: Verdict)
    ensures AllGrow(s.db, DoStep(g, s, i, v).db)
  {
    if i < |s.execs| {
      StepDb(g, s, i, v);
      ResultGrows(g, s.db, s.execs[i].job, DoStep(g, s, i, v).db);
    }
  }

  /** Terminal statuses, recorded message ids and first timestamps are never changed, delivery never
      moves to a lower rank, and counters never go down. */
  lemma {:induction false} RunGrows(g: Granularity, s: State, acts: seq<Action>)
    ensures AllGrow(s.db, Run(g, s, acts).db)
  {
    if acts != [] {
      RunGrows(g, s, acts[..|acts| - 1]);
      NextGrows(g, Run(g, s, acts[..|acts| - 1]), acts[|acts| - 1]);
    }
  }

  // ---- cancelling ----

  ghost predicate IsCancelled(s: State, j: JobId) {
    j in s.db.jobs && s.db.jobs[j].status == SendStatus.Cancelled
  }

  lemma CancelledHasNoSender(g: Granularity, s: State, j: JobId)
    requires Inv(g, s) && IsCancelled(s, j)
    ensures !Locked(s, j)
  {
    assert JobOk(g, s, j);
    forall i | 0 <= i < |s.execs| && s.execs[i].job == j ensures !InFlight(s.execs[i].phase) {
      assert ExecOk(g, s, s.execs[i]);
    }
  }

  lemma NextKeepsCancelledOut(g: Granularity, s: State, a: Action, j: JobId)
    requires Inv(g, s) && IsCancelled(s, j)
    ensures j in Next(g, s, a).provider.cache <==> j in s.provider.cache
  {
    CancelledHasNoSender(g, s, j);
    if a.Step? && a.exec < |s.execs| {
      StepAccepts(g, s, a.exec, a.verdict, j);
    }
  }

  /** Only an execution of j that is in flight can get the key of j accepted. */
  lemma StepAccepts(g: Granularity, s: State, i: nat, v: Verdict, j: JobId)
    requires i < |s.execs| && !Locked(s, j)
    ensures j in DoStep(g, s, i, v).provider.cache <==> j in s.provider.cache
  {
    assert s.execs[i].job == j ==> !InFlight(s.execs[i].phase);
  }

  /** From the moment a job is cancelled, its key is accepted if and only if it already was: at either
      granularity, cancelling is the last word on whether the recipient is mailed. */
  lemma {:induction false} CancelFreezesKey(g: Granularity, s: State, acts: seq<Action>, j: JobId)
    requires Reachable(g, s) && IsCancelled(s, j)
    ensures IsCancelled(Run(g, s, acts), j)
    ensures j in Run(g, s, acts).provider.cache <==> j in s.provider.cache
  {
    ReachableInv(g, s);
    if acts != [] {
      var init := acts[..|acts| - 1];
      CancelFreezesKey(g, s, init, j);
      RunInv(g, s, init);
      RunGrows(g, s, acts);
      NextKeepsCancelledOut(g, Run(g, s, init), acts[|acts| - 1], j);
    }
  }

  /** When every store call is durable at once, a cancelled job was never claimed and its key is not
      accepted, now or later. */
  lemma CancelledNeverSent(s: State, acts: seq<Action>, j: JobId)
    requires Reachable(PerStatement, s) && IsCancelled(s, j)
    ensures j !in s.claimed && j !in Run(PerStatement, s, acts).provider.cache
  {
    ReachableInv(PerStatement, s);
    assert JobOk(PerStatement, s, j);
    CancelFreezesKey(PerStatement, s, acts, j);
  }

  /** Cancelling moves only queued jobs, and without a commit in between only jobs nobody claimed. */
  lemma CancelOnlyQueued(g: Granularity, s: State, j: JobId, k: JobId)
    requires Reachable(g, s) && k in s.db.jobs
    ensures var s' := DoCancelJob(g, s, j);
            && k in s'.db.jobs
            && (s'.db.jobs[k] != s.db.jobs[k] ==>
                  k == j && s.db.jobs[k].status == SendStatus.Queued && s'.db.jobs[k].status == SendStatus.Cancelled
                  && (g.PerStatement? ==> k !in s.claimed))
  {
    ReachableInv(g, s);
    assert JobOk(g, s, k);
  }

  /** An execution that comes to a cancelled job returns normally without touching the provider: the
      task of a cancelled job may still be dequeued and completed. */
  lemma CancelledJobReturns(g: Granularity, s: State, i: nat, v: Verdict, w: Verdict)
    requires Reachable(g, s) && i < |s.execs| && s.execs[i].phase.Claiming? && IsCancelled(s, s.execs[i].job)
    ensures var s' := DoStep(g, DoStep(g, s, i, v), i, w);
            s'.execs[i].phase == Ended(Returned) && s'.provider == s.provider && s'.db == s.db
  {
    ReachableInv(g, s);
    CancelledHasNoSender(g, s, s.execs[i].job);
    ClaimMisses(g, s, i, v, w);
  }

  lemma ClaimMisses(g: Granularity, s: State, i: nat, v: Verdict, w: Verdict)
    requires i < |s.execs| && s.execs[i].phase.Claiming? && !Locked(s, s.execs[i].job) && IsCancelled(s, s.execs[i].job)
    ensures var s' := DoStep(g, DoStep(g, s, i, v), i, w);
            s'.execs[i].phase == Ended(Returned) && s'.provider == s.provider && s'.db == s.db
  {
    var s1 := Move(s, i, ReadingBack);
    assert DoStep(g, s, i, v) == DoClaim(g, s, i) == s1;
    assert DoStep(g, s1, i, w) == DoReadBack(s1, i);
  }

  const CRASH_THEN_CANCEL: seq<Action> := [
    InsertJob(7, 1, "a@example.com"), Start(7),
    Step(0, Accept), Step(0, Accept), Step(0, Accept), Step(0, Accept),
    Crash(0), CancelJob(7)]

  /** With one commit at the end the stronger claim fails: a worker that dies after the provider
      accepted leaves the row queued, and the job can then be cancelled although its mail is out. */
  lemma CancelledYetSent()
    ensures var s := Run(PerTransaction, Init(0.0), CRASH_THEN_CANCEL);
            IsCancelled(s, 7) && 7 in s.provider.cache && s.provider.providerSends == 1
  {
    var a, g, s0 := CRASH_THEN_CANCEL, PerTransaction, Init(0.0);
    CrashAfterAcceptance();
    RunStep(g, s0, a, 6);
    RunStep(g, s0, a, 7);
    assert a[..8] == a;
  }

  function QueuedJob(): EmailJob {
    NewJob(1, "a@example.com")
  }

  lemma ClaimedQueuedJob()
    ensures Run(PerTransaction, Init(0.0), CRASH_THEN_CANCEL[..3])
         == State(0.0, Db(map[7 := QueuedJob()], map[], [], map[]), EMPTY_PROVIDER, [SendExec(7, Looking)], {7}, [])
  {
    var a, g, s0 := CRASH_THEN_CANCEL, PerTransaction, Init(0.0);
    RunStep(g, s0, a, 0);
    RunStep(g, s0, a, 1);
    RunStep(g, s0, a, 2);
    var s2 := s0.(db := UpdateJob(s0.db, 7, QueuedJob()), execs := [SendExec(7, Claiming)]);
    assert Run(g, s0, a[..2]) == s2;
    assert DoClaim(g, s2, 0) == s2.(execs := [SendExec(7, Looking)], claimed := {7});
  }

  lemma CrashAfterAcceptance()
    ensures var s := Run(PerTransaction, Init(0.0), CRASH_THEN_CANCEL[..6]);
            && s.db == Db(map[7 := QueuedJob()], map[], [], map[]) && s.now == 0.0
            && s.execs == [SendExec(7, Recording(Msg(7), 0.0))]
            && 7 in s.provider.cache && s.provider.providerSends == 1
  {
    var a, g, s0 := CRASH_THEN_CANCEL, PerTransaction, Init(0.0);
    AboutToPut();
    RunStep(g, s0, a, 5);
    AcceptFirst(g, Run(g, s0, a[..5]));
  }

  lemma AboutToPut()
    ensures Run(PerTransaction, Init(0.0), CRASH_THEN_CANCEL[..5])
         == State(0.0, Db(map[7 := QueuedJob()], map[], [], map[]), Look(EMPTY_PROVIDER, 7),
             [SendExec(7, Putting(0.0))], {7}, [])
  {
    var a, g, s0 := CRASH_THEN_CANCEL, PerTransaction, Init(0.0);
    ClaimedQueuedJob();
    RunStep(g, s0, a, 3);
    RunStep(g, s0, a, 4);
    var s3 := Run(g, s0, a[..3]);
    var s4 := DoLook(s3, 0);
    assert s4 == s3.(execs := [SendExec(7, Trying)], provider := Look(EMPTY_PROVIDER, 7));
    assert DoRoll(s4, 0, Accept) == s4.(execs := [SendExec(7, Putting(0.0))]);
  }

  lemma AcceptFirst(g: Granularity, s: State)
    requires s.execs != [] && s.execs[0] == SendExec(7, Putting(0.0)) && 7 !in s.provider.cache
    ensures var s' := DoStep(g, s, 0, Accept);
            && s'.db == s.db && s'.now == s.now && s'.execs == s.execs[0 := SendExec(7, Recording(Msg(7), 0.0))]
            && 7 in s'.provider.cache && s'.provider.providerSends == s.provider.providerSends + 1
  {
    assert DoStep(g, s, 0, Accept) == DoPut(s, 0, 0.0);
  }

  // ---- when a record lands ----

  /** The record of an accepted send ends with the job sent exactly if one commit covers the whole
      call, or no other execution has moved the row off `sending` in between. */
  lemma RecordLandsIff(g: Granularity, s: State, i: nat, m: MessageId, at: real)
    requires Reachable(g, s) && i < |s.execs| && s.execs[i].phase == Recording(m, at)
    ensures s.execs[i].job in s.db.jobs && s.execs[i].job in DoRecord(g, s, i, m, at).db.jobs
    ensures DoRecord(g, s, i, m, at).db.jobs[s.execs[i].job].status == SendStatus.Sent <==>
            g.PerTransaction? || s.db.jobs[s.execs[i].job].status in {SendStatus.Sending, SendStatus.Sent}
  {
    ReachableInv(g, s);
    assert ExecOk(g, s, s.execs[i]);
  }

  const OVERTAKEN_RECORD: seq<Action> := [
    InsertJob(7, 1, "a@example.com"), Start(7), Start(7),
    Step(0, Accept), Step(1, Accept), Step(0, Accept), Step(1, Accept),
    Step(0, Accept), Step(0, Accept), Step(1, Unavailable), Step(1, Accept), Step(0, Accept)]

  function SendingJob(): EmailJob {
    QueuedJob().(status := SendStatus.Sending)
  }

  /** The state after n actions of the run below, spelled out at four points. */
  lemma BothMissed()
    ensures var s := Run(PerStatement, Init(0.0), OVERTAKEN_RECORD[..7]);
            && s.now == 0.0 && s.db == Db(map[7 := SendingJob()], map[], [], map[]) && s.provider.cache == map[]
            && s.execs == [SendExec(7, Trying), SendExec(7, Trying)]
  {
    var a, g, s0 := OVERTAKEN_RECORD, PerStatement, Init(0.0);
    BothClaimed();
    RunStep(g, s0, a, 5);
    RunStep(g, s0, a, 6);
    var s5 := Run(g, s0, a[..5]);
    LookMisses(g, s5, 0, Accept);
    var s6 := DoStep(g, s5, 0, Accept);
    assert s6.execs == [SendExec(7, Trying), SendExec(7, Looking)];
    LookMisses(g, s6, 1, Accept);
  }

  lemma LookMisses(g: Granularity, s: State, i: nat, v: Verdict)
    requires i < |s.execs| && s.execs[i] == SendExec(7, Looking) && 7 !in s.provider.cache
    ensures DoStep(g, s, i, v) == s.(execs := s.execs[i := SendExec(7, Trying)], provider := Look(s.provider, 7))
  {
    assert DoStep(g, s, i, v) == DoLook(s, i);
  }

  lemma BothClaimed()
    ensures Run(PerStatement, Init(0.0), OVERTAKEN_RECORD[..5])
         == State(0.0, Db(map[7 := SendingJob()], map[], [], map[]), EMPTY_PROVIDER,
             [SendExec(7, Looking), SendExec(7, Looking)], {7}, [])
  {
    var a, g, s0 := OVERTAKEN_RECORD, PerStatement, Init(0.0);
    RunStep(g, s0, a, 0);
    RunStep(g, s0, a, 1);
    RunStep(g, s0, a, 2);
    var s3 := s0.(db := UpdateJob(s0.db, 7, QueuedJob()), execs := [SendExec(7, Claiming), SendExec(7, Claiming)]);
    assert Run(g, s0, a[..3]) == s3;
    RunStep(g, s0, a, 3);
    RunStep(g, s0, a, 4);
    var s4 := DoClaim(g, s3, 0);
    assert s4 == s3.(db := UpdateJob(s0.db, 7, SendingJob()), execs := [SendExec(7, Looking), SendExec(7, Claiming)],
        claimed := {7});
    assert DoClaim(g, s4, 1) == s4.(execs := [SendExec(7, Looking), SendExec(7, Looking)]);
  }

  lemma OneAccepted()
    ensures var s := Run(PerStatement, Init(0.0), OVERTAKEN_RECORD[..9]);
            && s.db.jobs == map[7 := SendingJob()] && 7 in s.provider.cache
            && s.execs == [SendExec(7, Recording(Msg(7), 0.0)), SendExec(7, Trying)]
  {
    var a, g, s0 := OVERTAKEN_RECORD, PerStatement, Init(0.0);
    BothMissed();
    RunStep(g, s0, a, 7);
    RunStep(g, s0, a, 8);
    var s7 := Run(g, s0, a[..7]);
    var s8 := DoRoll(s7, 0, Accept);
    assert s8 == s7.(execs := [SendExec(7, Putting(0.0)), SendExec(7, Trying)]);
    AcceptFirst(g, s8);
  }

  lemma OtherFailed()
    ensures var s := Run(PerStatement, Init(0.0), OVERTAKEN_RECORD[..11]);
            && s.db.jobs == map[7 := QueuedJob().(status := SendStatus.FailedTransient)] && 7 in s.provider.cache
            && |s.execs| == 2 && s.execs[0] == SendExec(7, Recording(Msg(7), 0.0))
  {
    var a, g, s0 := OVERTAKEN_RECORD, PerStatement, Init(0.0);
    OneAccepted();
    RunStep(g, s0, a, 9);
    RunStep(g, s0, a, 10);
    OutageRecorded(Run(g, s0, a[..9]));
  }

  lemma OutageRecorded(s: State)
    requires s.db.jobs == map[7 := SendingJob()]
    requires s.execs == [SendExec(7, Recording(Msg(7), 0.0)), SendExec(7, Trying)]
    ensures var s' := DoStep(PerStatement, DoStep(PerStatement, s, 1, Unavailable), 1, Accept);
            && s'.db.jobs == map[7 := QueuedJob().(status := SendStatus.FailedTransient)] && s'.provider == s.provider
            && |s'.execs| == 2 && s'.execs[0] == s.execs[0]
  {
    var s1 := DoRoll(s, 1, Unavailable);
    assert s1.execs == [s.execs[0], SendExec(7, RecordingTransient("503 service unavailable"))];
    assert DoStep(PerStatement, s1, 1, Accept) == DoRecordTransient(PerStatement, s1, 1, "503 service unavailable");
  }

  /** With every store call durable at once, two executions of one job can end like this: one reports
      success, the mail is out, and the job is left failed_transient. */
  lemma ReturnedYetNotRecorded()
    ensures var s := Run(PerStatement, Init(0.0), OVERTAKEN_RECORD);
            && |s.execs| == 2 && s.execs[0] == SendExec(7, Ended(Returned)) && 7 in s.provider.cache
            && 7 in s.db.jobs && s.db.jobs[7].status == SendStatus.FailedTransient
  {
    var a, g, s0 := OVERTAKEN_RECORD, PerStatement, Init(0.0);
    OtherFailed();
    RunStep(g, s0, a, 11);
    assert a[..12] == a;
  }
}
