/** Webhooks that overtake the record of their own send: mark_sent adopts them, and then only a direct
    processing of the event applies them, for the sweeper selects events without a job. */
module EarlyEvents {
  import opened Prelude
  import opened Transitions
  import opened Models
  import opened JobStore
  import opened Webhooks
  import opened FakeProvider
  import opened Convergence
  import opened SendMachine
  import opened SendSafety
  import opened SendTheorems

  /** The event has a job but has been neither processed nor applied. */
  ghost predicate Adopted(d: Db, e: EventId) {
    e in d.events && d.events[e].job.Some? && d.events[e].processedAt.None? && e !in d.applied
  }

  /** When the record of a send takes effect, every orphan of its message is adopted. */
  lemma RecordAdopts(g: Granularity, s: State, i: nat, v: Verdict, e: EventId)
    requires Reachable(g, s) && i < |s.execs| && s.execs[i].phase.Recording?
    requires g.PerTransaction? || (s.execs[i].job in s.db.jobs &&
        s.db.jobs[s.execs[i].job].status == SendStatus.Sending)
    requires IsOrphan(s.db, e) && s.db.events[e].mid == s.execs[i].phase.mid
    ensures var d := DoStep(g, s, i, v).db;
            Adopted(d, e) && d.events[e].job == Some(s.execs[i].job) && HasMid(d.jobs, s.execs[i].job, d.events[e].mid)
  {
    ReachableInv(g, s);
    assert ExecOk(g, s, s.execs[i]);
    assert e !in s.db.applied;
    var j, m, at := s.execs[i].job, s.execs[i].phase.mid, s.execs[i].phase.at;
    RecordIsMarkSent(g, s, i, v);
    SessionIsSending(g, s.db, j);
    MarkSentAdopts(Session(g, s.db, j), j, m, at, e);
  }

  lemma RecordIsMarkSent(g: Granularity, s: State, i: nat, v: Verdict)
    requires i < |s.execs| && s.execs[i].phase.Recording?
    ensures var j := s.execs[i].job;
            DoStep(g, s, i, v).db == MarkSent(Session(g, s.db, j), j, s.execs[i].phase.mid, s.execs[i].phase.at)
  {
  }

  lemma SessionIsSending(g: Granularity, d: Db, j: JobId)
    requires j in d.jobs
    requires if g.PerTransaction? then d.jobs[j].status in CLAIMABLE else d.jobs[j].status == SendStatus.Sending
    ensures var mine := Session(g, d, j);
            && j in mine.jobs && mine.jobs[j].status == SendStatus.Sending
            && mine.events == d.events && mine.applied == d.applied
  {
  }

  lemma MarkSentAdopts(d: Db, j: JobId, m: MessageId, at: real, e: EventId)
    requires j in d.jobs && d.jobs[j].status == SendStatus.Sending
    requires IsOrphan(d, e) && d.events[e].mid == m && e !in d.applied
    ensures var d' := MarkSent(d, j, m, at);
            Adopted(d', e) && d'.events[e].job == Some(j) && HasMid(d'.jobs, j, d'.events[e].mid)
  {
  }

  /** Every other row of the event table is as before. */
  lemma ProcessOthers(d: Db, e: EventId, f: EventId, now: real)
    requires e != f && Adopted(d, f)
    ensures Adopted(ProcessEvent(d, e, now).0, f) && ProcessEvent(d, e, now).0.events[f] == d.events[f]
  {
  }

  lemma NextAdopted(g: Granularity, s: State, a: Action, e: EventId)
    requires Adopted(s.db, e) && a != Process(e)
    ensures Adopted(Next(g, s, a).db, e) && Next(g, s, a).db.events[e].mid == s.db.events[e].mid
  {
    match a
    case Step(i, v) => StepAdopted(g, s, i, v, e);
    case Process(f) => ProcessOthers(s.db, f, e, s.now);
    case Sweep(f) =>
      if IsOrphan(s.db, f) {
        SweepOthersAdopted(s.db, f, e, s.now);
      }
    case _ =>
  }

  lemma SweepOthersAdopted(d: Db, f: EventId, e: EventId, now: real)
    requires e != f && Adopted(d, e)
    ensures Adopted(SweepOne(d, f, now).0, e) && SweepOne(d, f, now).0.events[e] == d.events[e]
  {
    ProcessOthers(d, f, e, now);
  }

  lemma MarkSentAdopted(d: Db, j: JobId, m: MessageId, at: real, e: EventId)
    requires Adopted(d, e)
    ensures Adopted(MarkSent(d, j, m, at), e) && MarkSent(d, j, m, at).events[e] == d.events[e]
  {
  }

  lemma StepAdopted(g: Granularity, s: State, i: nat, v: Verdict, e: EventId)
    requires Adopted(s.db, e)
    ensures Adopted(DoStep(g, s, i, v).db, e) && DoStep(g, s, i, v).db.events[e].mid == s.db.events[e].mid
  {
    if i < |s.execs| {
      var mine := Session(g, s.db, s.execs[i].job);
      match s.execs[i].phase
      case Recovering(m) => MarkSentAdopted(mine, s.execs[i].job, m, s.now, e);
      case Recording(m, at) => MarkSentAdopted(mine, s.execs[i].job, m, at, e);
      case _ =>
    }
  }

  lemma NextApplied(g: Granularity, s: State, a: Action, e: EventId)
    requires e in s.db.applied
    ensures e in Next(g, s, a).db.applied
  {
    match a
    case Step(i, v) => if i < |s.execs| { StepKeepsApplied(g, s, i, v); }
    case Process(f) => ProcessApplies(s.db, f, e, s.now);
    case Sweep(f) => ProcessApplies(s.db, f, e, s.now);
    case _ =>
  }

  lemma StepKeepsApplied(g: Granularity, s: State, i: nat, v: Verdict)
    requires i < |s.execs|
    ensures DoStep(g, s, i, v).db.applied == s.db.applied
  {
    StepSameLog(g, s, i, v);
  }

  lemma ProcessApplies(d: Db, f: EventId, e: EventId, now: real)
    requires e in d.applied
    ensures e in ProcessEvent(d, f, now).0.applied && e in SweepOne(d, f, now).0.applied
  {
  }

  ghost predicate Processes(acts: seq<Action>, e: EventId) {
    exists n :: 0 <= n < |acts| && acts[n] == Process(e)
  }

  lemma {:induction false} RunAdopted(g: Granularity, s: State, acts: seq<Action>, j: JobId, e: EventId)
    requires Adopted(s.db, e) && HasMid(s.db.jobs, j, s.db.events[e].mid) && s.db.jobs[j].status == SendStatus.Sent
    ensures var d := Run(g, s, acts).db;
            if Processes(acts, e) then e in d.applied else Adopted(d, e) && d.events[e].mid == s.db.events[e].mid
  {
    if acts != [] {
      var init, a := acts[..|acts| - 1], acts[|acts| - 1];
      var u := Run(g, s, init);
      RunAdopted(g, s, init, j, e);
      assert Processes(acts, e) <==> Processes(init, e) || a == Process(e) by {
        assert forall n :: 0 <= n < |init| ==> init[n] == acts[n];
      }
      if Processes(init, e) {
        NextApplied(g, u, a, e);
      } else if a == Process(e) {
        RunGrows(g, s, init);
        assert Grows(s.db.jobs[j], u.db.jobs[j]);
        assert HasMid(u.db.jobs, j, u.db.events[e].mid);
      } else {
        NextAdopted(g, u, a, e);
      }
    }
  }

  /** "Every early event is eventually applied" holds exactly as far as somebody processes it: from the
      moment it is adopted, a run applies the event if and only if it contains a direct processing of
      it. No number of sweeps does. */
  lemma AdoptedAppliedIffProcessed(g: Granularity, s: State, acts: seq<Action>, j: JobId, e: EventId)
    requires Reachable(g, s) && Adopted(s.db, e) && HasMid(s.db.jobs, j, s.db.events[e].mid)
    ensures e in Run(g, s, acts).db.applied <==> Processes(acts, e)
  {
    AxesAgree(g, s);
    RunAdopted(g, s, acts, j, e);
  }

  // ---- from its arrival on ----

  ghost predicate Recorded(d: Db, m: MessageId) {
    exists j :: HasMid(d.jobs, j, m)
  }

  /** The event arrived before the record of its send, and nothing has come of it yet. */
  ghost predicate Early(d: Db, e: EventId) {
    IsOrphan(d, e) && e !in d.applied && !Recorded(d, d.events[e].mid)
  }

  /** Where an early event stands: applied, or given up, or waiting, and then with a job exactly if the
      send has been recorded. */
  ghost predicate Stands(d: Db, e: EventId, m: MessageId, applied: bool, givenUp: bool) {
    && e in d.events && d.events[e].mid == m
    && (e in d.applied <==> applied)
    && (!applied ==> (d.events[e].processedAt.Some? <==> givenUp))
    && (!applied && !givenUp ==> (d.events[e].job.Some? <==> Recorded(d, m)))
  }

  /** The sweeper abandons the event. */
  ghost predicate GivesUp(s: State, a: Action, e: EventId) {
    a == Sweep(e) && IsOrphan(s.db, e) && s.now - s.db.events[e].receivedAt > ORPHAN_GIVE_UP_AFTER
  }

  /** The record of m, if this is it, makes the job known and adopts the event in one statement. */
  lemma MarkSentStands(d: Db, j: JobId, n: MessageId, at: real, e: EventId, m: MessageId, applied: bool, givenUp: bool)
    requires Stands(d, e, m, applied, givenUp)
    requires j in d.jobs && d.jobs[j].status == SendStatus.Sending ==> d.jobs[j].mid.None?
    ensures Stands(MarkSent(d, j, n, at), e, m, applied, givenUp)
  {
    var d' := MarkSent(d, j, n, at);
    if j in d.jobs && d.jobs[j].status == SendStatus.Sending {
      assert HasMid(d'.jobs, j, n);
      forall k | k != j ensures HasMid(d'.jobs, k, m) <==> HasMid(d.jobs, k, m) {
      }
      assert Recorded(d', m) <==> Recorded(d, m) || n == m;
    }
  }

  /** A change that leaves message ids, events and the log alone. */
  lemma SameStands(d: Db, d': Db, e: EventId, m: MessageId, applied: bool, givenUp: bool)
    requires Stands(d, e, m, applied, givenUp)
    requires (e in d'.applied <==> e in d.applied) && e in d'.events && d'.events[e].mid == d.events[e].mid
    requires d'.events[e].processedAt == d.events[e].processedAt && d'.events[e].job == d.events[e].job
    requires forall j :: HasMid(d'.jobs, j, m) <==> HasMid(d.jobs, j, m)
    ensures Stands(d', e, m, applied, givenUp)
  {
  }

  lemma StepStands(g: Granularity, s: State, i: nat, v: Verdict, e: EventId, m: MessageId, applied: bool, givenUp: bool)
    requires Inv(g, s) && i < |s.execs| && Stands(s.db, e, m, applied, givenUp)
    ensures Stands(DoStep(g, s, i, v).db, e, m, applied, givenUp)
  {
    var k := s.execs[i].job;
    assert k in s.db.jobs ==> JobOk(g, s, k);
    StepDb(g, s, i, v);
    ResultStands(g, s.db, k, DoStep(g, s, i, v).db, e, m, applied, givenUp);
  }

  lemma ResultStands(g: Granularity, d: Db, k: JobId, d': Db, e: EventId, m: MessageId, applied: bool, givenUp: bool)
    requires StepResult(g, d, k, d') && Stands(d, e, m, applied, givenUp)
    requires k in d.jobs ==> (d.jobs[k].mid.Some? <==> d.jobs[k].status == SendStatus.Sent)
    ensures Stands(d', e, m, applied, givenUp)
  {
    var mine := Session(g, d, k);
    SessionStands(g, d, k, e, m, applied, givenUp);
    WithRowStands(d, k, ClaimRow, e, m, applied, givenUp);
    WithRowStands(mine, k, MarkTransientRow, e, m, applied, givenUp);
    WithRowStands(mine, k, MarkPermanentRow, e, m, applied, givenUp);
    if n, at :| d' == MarkSent(mine, k, n, at) {
      MarkSentStands(mine, k, n, at, e, m, applied, givenUp);
    }
  }

  lemma SessionStands(g: Granularity, d: Db, k: JobId, e: EventId, m: MessageId, applied: bool, givenUp: bool)
    requires Stands(d, e, m, applied, givenUp)
    ensures Stands(Session(g, d, k), e, m, applied, givenUp)
  {
    SameStands(d, Session(g, d, k), e, m, applied, givenUp);
  }

  lemma WithRowStands(d: Db, k: JobId, f: EmailJob -> EmailJob, e: EventId, m: MessageId, applied: bool, givenUp: bool)
    requires Stands(d, e, m, applied, givenUp) && forall r :: f(r).mid == r.mid
    ensures Stands(WithRow(d, k, f), e, m, applied, givenUp)
  {
    SameStands(d, WithRow(d, k, f), e, m, applied, givenUp);
  }

  /** Processing another event. */
  lemma OtherProcessStands(d: Db, f: EventId, now: real, e: EventId, m: MessageId, applied: bool, givenUp: bool)
    requires f != e && Stands(d, e, m, applied, givenUp)
    ensures Stands(ProcessEvent(d, f, now).0, e, m, applied, givenUp)
    ensures Stands(SweepOne(d, f, now).0, e, m, applied, givenUp)
  {
    ProcessKeepsMids(d, f, now, m);
    SameStands(d, ProcessEvent(d, f, now).0, e, m, applied, givenUp);
  }

  lemma ProcessKeepsMids(d: Db, f: EventId, now: real, m: MessageId)
    ensures forall j :: HasMid(ProcessEvent(d, f, now).0.jobs, j, m) <==> HasMid(d.jobs, j, m)
  {
    ProcessKeepsIdentity(d, f, now);
  }

  /** Processing the event itself: the guard is whether the job is known. */
  lemma ProcessStands(d: Db, now: real, e: EventId, m: MessageId, applied: bool, givenUp: bool)
    requires LogOk(d) && Stands(d, e, m, applied, givenUp)
    ensures Stands(ProcessEvent(d, e, now).0, e, m, applied || (!givenUp && Recorded(d, m)), givenUp)
  {
    ProcessKeepsMids(d, e, now, m);
    assert Recorded(d, m) <==> FindJob(d.jobs, m).Some?;
  }

  lemma NextStands(g: Granularity, s: State, a: Action, e: EventId, m: MessageId, applied: bool, givenUp: bool)
    requires Inv(g, s) && Stands(s.db, e, m, applied, givenUp)
    ensures Stands(Next(g, s, a).db, e, m, applied || (a == Process(e) && !givenUp && Recorded(s.db, m)),
                   givenUp || GivesUp(s, a, e))
  {
    match a
    case Step(i, v) => if i < |s.execs| { StepStands(g, s, i, v, e, m, applied, givenUp); }
    case Process(f) =>
      if f == e {
        ProcessStands(s.db, s.now, e, m, applied, givenUp);
      } else {
        OtherProcessStands(s.db, f, s.now, e, m, applied, givenUp);
      }
    case Sweep(f) => SweepStands(s, f, e, m, applied, givenUp);
    case _ => OthersStand(g, s, a, e, m, applied, givenUp);
  }

  lemma SweepStands(s: State, f: EventId, e: EventId, m: MessageId, applied: bool, givenUp: bool)
    requires LogOk(s.db) && Stands(s.db, e, m, applied, givenUp)
    ensures var d' := if IsOrphan(s.db, f) then SweepOne(s.db, f, s.now).0 else s.db;
            Stands(d', e, m, applied, givenUp || GivesUp(s, Sweep(f), e))
  {
    if f != e {
      OtherProcessStands(s.db, f, s.now, e, m, applied, givenUp);
    } else if IsOrphan(s.db, e) && !GivesUp(s, Sweep(f), e) {
      ProcessStands(s.db, s.now, e, m, applied, givenUp);
    }
  }

  lemma OthersStand(g: Granularity, s: State, a: Action, e: EventId, m: MessageId, applied: bool, givenUp: bool)
    requires Stands(s.db, e, m, applied, givenUp) && !a.Step? && !a.Process? && !a.Sweep?
    ensures Stands(Next(g, s, a).db, e, m, applied, givenUp)
  {
    SameStands(s.db, Next(g, s, a).db, e, m, applied, givenUp);
  }

  // ---- over runs ----

  ghost predicate GivenUpBefore(g: Granularity, s: State, acts: seq<Action>, n: nat, e: EventId)
    requires n <= |acts|
  {
    exists k :: 0 <= k < n && GivesUp(Run(g, s, acts[..k]), acts[k], e)
  }

  /** The n-th step processes the event directly, after the record of its send and before any giving up. */
  ghost predicate ProcessedInTime(g: Granularity, s: State, acts: seq<Action>, n: nat, e: EventId, m: MessageId) {
    n < |acts| && acts[n] == Process(e) && Recorded(Run(g, s, acts[..n]).db, m) && !GivenUpBefore(g, s, acts, n, e)
  }

  ghost predicate InTime(g: Granularity, s: State, acts: seq<Action>, e: EventId, m: MessageId) {
    exists n: nat :: ProcessedInTime(g, s, acts, n, e, m)
  }

  lemma SamePrefixes(acts: seq<Action>, k: nat)
    requires k < |acts| - 1
    ensures acts[..|acts| - 1][..k] == acts[..k] && acts[..|acts| - 1][k] == acts[k]
  {
  }

  lemma GivenUpPrefix(g: Granularity, s: State, acts: seq<Action>, n: nat, e: EventId)
    requires n < |acts|
    ensures GivenUpBefore(g, s, acts, n, e) <==> GivenUpBefore(g, s, acts[..|acts| - 1], n, e)
  {
    var init := acts[..|acts| - 1];
    if GivenUpBefore(g, s, acts, n, e) {
      var k :| 0 <= k < n && GivesUp(Run(g, s, acts[..k]), acts[k], e);
      SamePrefixes(acts, k);
      assert GivesUp(Run(g, s, init[..k]), init[k], e);
    }
    if GivenUpBefore(g, s, init, n, e) {
      var k :| 0 <= k < n && GivesUp(Run(g, s, init[..k]), init[k], e);
      SamePrefixes(acts, k);
      assert GivesUp(Run(g, s, acts[..k]), acts[k], e);
    }
  }

  lemma GivenUpOneMore(g: Granularity, s: State, acts: seq<Action>, e: EventId)
    requires acts != []
    ensures var init, n := acts[..|acts| - 1], |acts| - 1;
            GivenUpBefore(g, s, acts, |acts|, e) <==>
            GivenUpBefore(g, s, init, n, e) || GivesUp(Run(g, s, init), acts[n], e)
  {
    var n := |acts| - 1;
    GivenUpPrefix(g, s, acts, n, e);
    if GivenUpBefore(g, s, acts, |acts|, e) && !GivesUp(Run(g, s, acts[..n]), acts[n], e) {
      var k :| 0 <= k < |acts| && GivesUp(Run(g, s, acts[..k]), acts[k], e);
      assert k < n;
    }
  }

  lemma InTimeOneMore(g: Granularity, s: State, acts: seq<Action>, e: EventId, m: MessageId)
    requires acts != []
    ensures var init, n := acts[..|acts| - 1], |acts| - 1;
            InTime(g, s, acts, e, m) <==>
            InTime(g, s, init, e, m)
            || (acts[n] == Process(e) && Recorded(Run(g, s, init).db, m) && !GivenUpBefore(g, s, init, n, e))
  {
    var init, n := acts[..|acts| - 1], |acts| - 1;
    forall k | 0 <= k < n ensures ProcessedInTime(g, s, acts, k, e, m) <==> ProcessedInTime(g, s, init, k, e, m) {
      SamePrefixes(acts, k);
      GivenUpPrefix(g, s, acts, k, e);
    }
    GivenUpPrefix(g, s, acts, n, e);
    assert acts[..n] == init;
    if k: nat :| ProcessedInTime(g, s, acts, k, e, m) {
      assert k < n ==> ProcessedInTime(g, s, init, k, e, m);
    }
    if k: nat :| ProcessedInTime(g, s, init, k, e, m) {
      assert ProcessedInTime(g, s, acts, k, e, m);
    }
    if acts[n] == Process(e) && Recorded(Run(g, s, init).db, m) && !GivenUpBefore(g, s, init, n, e) {
      assert ProcessedInTime(g, s, acts, n, e, m);
    }
  }

  lemma {:induction false} RunStands(g: Granularity, s: State, acts: seq<Action>, e: EventId)
    requires Inv(g, s) && ClaimedExist(s) && Early(s.db, e)
    ensures Stands(Run(g, s, acts).db, e, s.db.events[e].mid, InTime(g, s, acts, e, s.db.events[e].mid),
                   GivenUpBefore(g, s, acts, |acts|, e))
  {
    if acts != [] {
      var init, m := acts[..|acts| - 1], s.db.events[e].mid;
      RunStands(g, s, init, e);
      RunInv(g, s, init);
      GivenUpOneMore(g, s, acts, e);
      InTimeOneMore(g, s, acts, e, m);
      NextStands(g, Run(g, s, init), acts[|acts| - 1], e, m, InTime(g, s, init, e, m),
          GivenUpBefore(g, s, init, |init|, e));
    }
  }

  /** "Every early event is eventually applied" holds exactly as far as the order of three things allows:
      an event that arrived before its send was recorded is applied by a run if and only if somebody
      processes it directly after that record and before a sweep has given it up. */
  lemma EarlyAppliedIff(g: Granularity, s: State, acts: seq<Action>, e: EventId)
    requires Reachable(g, s) && Early(s.db, e)
    ensures e in Run(g, s, acts).db.applied <==> InTime(g, s, acts, e, s.db.events[e].mid)
  {
    ReachableInv(g, s);
    RunStands(g, s, acts, e);
  }

  /** The endpoint processes each stored event once. Then, unless it was given up first, what decides is
      the guard that single processing meets: is the send recorded yet? */
  lemma ProcessedOnceAppliedIff(g: Granularity, s: State, acts: seq<Action>, n: nat, e: EventId)
    requires Reachable(g, s) && Early(s.db, e)
    requires n < |acts| && acts[n] == Process(e) && !GivenUpBefore(g, s, acts, n, e)
    requires forall k :: 0 <= k < |acts| && k != n ==> acts[k] != Process(e)
    ensures e in Run(g, s, acts).db.applied <==> Recorded(Run(g, s, acts[..n]).db, s.db.events[e].mid)
  {
    EarlyAppliedIff(g, s, acts, e);
    var m := s.db.events[e].mid;
    if Recorded(Run(g, s, acts[..n]).db, m) {
      assert ProcessedInTime(g, s, acts, n, e, m);
    }
  }

  // ---- it happens ----

  const DELIVERED: Event := Event(Evt(Msg(7), EvDelivered, 1.0), Msg(7), EvDelivered, 1.0)

  const OVERTAKING_WEBHOOK: seq<Action> := CRASH_THEN_CANCEL[..6] + [
    Ingest(DELIVERED), Process(DELIVERED.id), Step(0, Accept), Sweep(DELIVERED.id)]

  function WaitingRow(): EventRow {
    EventRow(Msg(7), EvDelivered, 1.0, 0.0, None, None, 1)
  }

  lemma ProcessedTooEarly()
    ensures var s := Run(PerTransaction, Init(0.0), OVERTAKING_WEBHOOK[..8]);
            && s.db == Db(map[7 := QueuedJob()], map[DELIVERED.id := WaitingRow()], [], map[])
            && s.execs == [SendExec(7, Recording(Msg(7), 0.0))]
  {
    var a, g, s0 := OVERTAKING_WEBHOOK, PerTransaction, Init(0.0);
    CrashAfterAcceptance();
    assert a[..6] == CRASH_THEN_CANCEL[..6];
    RunStep(g, s0, a, 6);
    RunStep(g, s0, a, 7);
    ArrivesAndWaits();
  }

  lemma ArrivesAndWaits()
    ensures var d := Db(map[7 := QueuedJob()], map[], [], map[]);
            ProcessEvent(InsertEvent(d, DELIVERED, 0.0), DELIVERED.id, 0.0).0
              == d.(events := map[DELIVERED.id := WaitingRow()])
  {
    var d := Db(map[7 := QueuedJob()], map[], [], map[]);
    var d1 := InsertEvent(d, DELIVERED, 0.0);
    assert d1 == d.(events := map[DELIVERED.id := WaitingRow().(attempts := 0)]);
    assert FindJob(d1.jobs, Msg(7)).None?;
    assert d1.events[DELIVERED.id := WaitingRow()] == map[DELIVERED.id := WaitingRow()];
  }

  /** The delivery report overtakes the record of the send: it finds no job, is then adopted, and a sweep
      passes it by. The job is shown as sent, and never as delivered. */
  lemma AdoptedNeverApplied()
    ensures var s := Run(PerTransaction, Init(0.0), OVERTAKING_WEBHOOK);
            && Adopted(s.db, DELIVERED.id)
            && 7 in s.db.jobs && s.db.jobs[7].status == SendStatus.Sent && s.db.jobs[7].delivery == None
  {
    var a, g, s0 := OVERTAKING_WEBHOOK, PerTransaction, Init(0.0);
    RunStep(g, s0, a, 9);
    AdoptedByRecord();
    assert a[..10] == a;
  }

  function AdoptedDb(): Db {
    Db(map[7 := QueuedJob().(status := SendStatus.Sent, mid := Some(Msg(7)), sentAt := Some(0.0))],
       map[DELIVERED.id := WaitingRow().(job := Some(7))], [], map[])
  }

  lemma AdoptedByRecord()
    ensures Run(PerTransaction, Init(0.0), OVERTAKING_WEBHOOK[..9]).db == AdoptedDb()
  {
    ProcessedTooEarly();
    RunStep(PerTransaction, Init(0.0), OVERTAKING_WEBHOOK, 8);
    RecordIsMarkSent(PerTransaction, Run(PerTransaction, Init(0.0), OVERTAKING_WEBHOOK[..8]), 0, Accept);
    RecordOfWaiting();
  }

  lemma RecordOfWaiting()
    ensures var d := Db(map[7 := QueuedJob()], map[DELIVERED.id := WaitingRow()], [], map[]);
            MarkSent(Session(PerTransaction, d, 7), 7, Msg(7), 0.0) == AdoptedDb()
  {
    var d := Db(map[7 := QueuedJob()], map[DELIVERED.id := WaitingRow()], [], map[]);
    var mine := Session(PerTransaction, d, 7);
    assert mine.jobs == map[7 := ClaimRow(QueuedJob())];
    assert MarkSent(mine, 7, Msg(7), 0.0).jobs == AdoptedDb().jobs;
    assert MarkSent(mine, 7, Msg(7), 0.0).events == AdoptedDb().events;
  }
}
