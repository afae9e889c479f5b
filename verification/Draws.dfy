/** What the send machine makes of the provider's draw: services/worker/tasks/send.py told by statuses, for one
    undisturbed execution and for whole runs. */
module Draws {
  import opened Prelude
  import opened Transitions
  import opened Models
  import opened JobStore
  import opened Webhooks
  import opened FakeProvider
  import opened Worker
  import opened SendMachine
  import opened SendSafety

  // ---- one undisturbed execution ----

  function Steps(i: nat, v: Verdict, n: nat): (acts: seq<Action>)
    ensures |acts| == n
  {
    seq(n, _ => Step(i, v))
  }

  lemma {:induction false} StepsRun(g: Granularity, s: State, i: nat, v: Verdict, n: nat)
    requires n > 0
    ensures Run(g, s, Steps(i, v, n)) == Run(g, DoStep(g, s, i, v), Steps(i, v, n - 1))
  {
    assert Steps(i, v, n)[..n - 1] == Steps(i, v, n - 1);
    if n == 1 {
      assert Run(g, s, Steps(i, v, 0)) == s;
    } else {
      StepsRun(g, s, i, v, n - 1);
      assert Steps(i, v, n - 1)[..n - 2] == Steps(i, v, n - 2);
    }
  }

  lemma {:induction false} OverStays(g: Granularity, s: State, i: nat, v: Verdict, n: nat)
    requires i < |s.execs| && s.execs[i].phase.Ended?
    ensures Run(g, s, Steps(i, v, n)) == s
  {
    if n > 0 {
      assert Steps(i, v, n)[..n - 1] == Steps(i, v, n - 1);
      OverStays(g, s, i, v, n - 1);
    }
  }

  /** The job is `sent` with this id and time, and owns the events of the message that nobody owned; no
      other row has changed. */
  ghost predicate Recorded(d: Db, d': Db, j: JobId, m: MessageId, at: real)
    requires j in d.jobs
  {
    && d'.jobs == d.jobs[j := d.jobs[j].(status := SendStatus.Sent, mid := Some(m), sentAt := Some(at))]
    && d'.events.Keys == d.events.Keys && d'.engagements == d.engagements && d'.applied == d.applied
    && forall e :: e in d.events ==>
         d'.events[e] == if d.events[e].mid == m && d.events[e].job.None? then d.events[e].(job := Some(j))
                         else d.events[e]
  }

  /** Only the status of j has changed. */
  ghost predicate Refused(d: Db, d': Db, j: JobId, status: SendStatus)
    requires j in d.jobs
  {
    d' == d.(jobs := d.jobs[j := d.jobs[j].(status := status)])
  }

  /** The row of a job an execution is working on: `sending`, or still as it was before the commit. */
  ghost predicate InHand(g: Granularity, d: Db, j: JobId) {
    && j in d.jobs && d.jobs[j].mid.None?
    && (g.PerStatement? ==> d.jobs[j].status.Sending?)
    && (g.PerTransaction? ==>
          d.jobs[j].status.Queued? || d.jobs[j].status.Sending? || d.jobs[j].status.FailedTransient?)
  }

  /** Execution i has ended like this; the others and the clock are as they were. */
  ghost predicate OnlyEnded(s: State, s': State, i: nat, outcome: Outcome)
    requires i < |s.execs|
  {
    s'.execs == s.execs[i := s.execs[i].(phase := Ended(outcome))] && s'.now == s.now
  }

  lemma RecordEnds(g: Granularity, s: State, i: nat, v: Verdict, m: MessageId, at: real)
    requires i < |s.execs| && s.execs[i].phase == Recording(m, at) && InHand(g, s.db, s.execs[i].job)
    ensures var s' := DoStep(g, s, i, v);
            && OnlyEnded(s, s', i, Returned) && s'.provider == s.provider
            && Recorded(s.db, s'.db, s.execs[i].job, m, at)
  {
  }

  lemma RefusalEnds(g: Granularity, s: State, i: nat, v: Verdict)
    requires i < |s.execs| && InHand(g, s.db, s.execs[i].job)
    requires s.execs[i].phase.RecordingTransient? || s.execs[i].phase.RecordingPermanent?
    ensures var s', p := DoStep(g, s, i, v), s.execs[i].phase;
            && s'.provider == s.provider
            && (p.RecordingTransient? ==>
                  && OnlyEnded(s, s', i, RaisedTransient(p.error))
                  && Refused(s.db, s'.db, s.execs[i].job, SendStatus.FailedTransient))
            && (p.RecordingPermanent? ==>
                  && OnlyEnded(s, s', i, RaisedPermanent(p.error))
                  && Refused(s.db, s'.db, s.execs[i].job, SendStatus.FailedPermanent))
  {
  }

  /** An execution that has drawn and runs on undisturbed: a rate limit or an outage is a transient error and
      leaves the job to be claimed again, an invalid recipient is a permanent one and fails it for good; the
      provider has nothing new in either case. An acceptance creates one message under the key and is recorded. */
  lemma DrawRunsOn(g: Granularity, s: State, i: nat, v: Verdict)
    requires i < |s.execs| && s.execs[i].phase.Trying? && InHand(g, s.db, s.execs[i].job)
    requires s.execs[i].job !in s.provider.cache
    ensures var s', j := Run(g, s, Steps(i, v, 3)), s.execs[i].job;
            match v
            case RateLimited =>
              && (exists e :: OnlyEnded(s, s', i, RaisedTransient(e))) && s'.provider == s.provider
              && Refused(s.db, s'.db, j, SendStatus.FailedTransient)
            case Unavailable =>
              && (exists e :: OnlyEnded(s, s', i, RaisedTransient(e))) && s'.provider == s.provider
              && Refused(s.db, s'.db, j, SendStatus.FailedTransient)
            case Invalid =>
              && (exists e :: OnlyEnded(s, s', i, RaisedPermanent(e))) && s'.provider == s.provider
              && Refused(s.db, s'.db, j, SendStatus.FailedPermanent)
            case Accept =>
              && OnlyEnded(s, s', i, Returned)
              && Recorded(s.db, s'.db, j, Msg(j), s.now)
              && s'.provider == s.provider.(cache := s.provider.cache[j := Entry(Msg(j), s.now)],
                                            providerSends := s.provider.providerSends + 1)
  {
    var s1 := DoStep(g, s, i, v);
    StepsRun(g, s, i, v, 3);
    StepsRun(g, s1, i, v, 2);
    if v.Accept? {
      AcceptanceEnds(g, s1, i, v, s.now);
      StepsRun(g, DoStep(g, s1, i, v), i, v, 1);
      assert Run(g, DoStep(g, DoStep(g, s1, i, v), i, v), Steps(i, v, 0)) == DoStep(g, DoStep(g, s1, i, v), i, v);
    } else {
      RefusalEnds(g, s1, i, v);
      OverStays(g, DoStep(g, s1, i, v), i, v, 1);
    }
  }

  lemma AcceptanceEnds(g: Granularity, s: State, i: nat, v: Verdict, at: real)
    requires i < |s.execs| && s.execs[i].phase == Putting(at) && InHand(g, s.db, s.execs[i].job)
    requires s.execs[i].job !in s.provider.cache
    ensures var s', j := DoStep(g, DoStep(g, s, i, v), i, v), s.execs[i].job;
            && OnlyEnded(s, s', i, Returned) && Recorded(s.db, s'.db, j, Msg(j), at)
            && s'.provider == s.provider.(cache := s.provider.cache[j := Entry(Msg(j), at)],
                                          providerSends := s.provider.providerSends + 1)
  {
    var j, s1 := s.execs[i].job, DoStep(g, s, i, v);
    assert s1.execs == s.execs[i := s.execs[i].(phase := Recording(Msg(j), at))] && s1.db == s.db;
    RecordEnds(g, s1, i, v, Msg(j), at);
    MovedThenEnded(s, s1, DoStep(g, s1, i, v), i, Recording(Msg(j), at), Returned);
  }

  lemma MovedThenEnded(s: State, s1: State, s': State, i: nat, p: Phase, o: Outcome)
    requires i < |s.execs| && s1.execs == s.execs[i := s.execs[i].(phase := p)] && s1.now == s.now
    requires OnlyEnded(s1, s', i, o)
    ensures OnlyEnded(s, s', i, o)
  {
    assert s'.execs == s.execs[i := s.execs[i].(phase := Ended(o))];
  }

  /** A call on a job nobody else is working on, started and run to its end. */
  ghost function Call(g: Granularity, s: State, j: JobId, v: Verdict): State {
    Run(g, Next(g, s, Start(j)), Steps(|s.execs|, v, 5))
  }

  lemma CallStarts(g: Granularity, s: State, j: JobId)
    ensures Next(g, s, Start(j)) == s.(execs := s.execs + [SendExec(j, Claiming)])
    ensures !Locked(s, j) ==> !Locked(Next(g, s, Start(j)), j)
  {
    var execs := s.execs + [SendExec(j, Claiming)];
    assert forall k :: 0 <= k < |s.execs| ==> execs[k] == s.execs[k];
  }

  /** A job that has settled, or does not exist, is reported as it is, and nothing is touched. */
  lemma SettledCall(g: Granularity, s: State, j: JobId, v: Verdict)
    requires g.PerTransaction? ==> !Locked(s, j)
    requires j in s.db.jobs ==>
               var status := s.db.jobs[j].status;
               status.Sent? || status.FailedPermanent? || status.Cancelled? || status.Skipped?
    ensures var s' := Call(g, s, j, v);
            && s'.db == s.db && s'.provider == s.provider && s'.now == s.now
            && |s'.execs| == |s.execs| + 1 && s'.execs[..|s.execs|] == s.execs && s'.execs[|s.execs|].phase.Ended?
            && (j in s.db.jobs ==> s'.execs[|s.execs|].phase.outcome.Returned?)
            && (j !in s.db.jobs ==> s'.execs[|s.execs|].phase.outcome.RaisedPermanent?)
  {
    var i, s0 := |s.execs|, Next(g, s, Start(j));
    CallStarts(g, s, j);
    StepsRun(g, s0, i, v, 5);
    var s1 := DoStep(g, s0, i, v);
    assert s1 == Move(s0, i, ReadingBack);
    StepsRun(g, s1, i, v, 4);
    var s2 := DoStep(g, s1, i, v);
    OverStays(g, s2, i, v, 3);
  }

  /** A claimable job whose key the provider knows is recorded as it was accepted, without another message;
      otherwise the draw decides, as for an execution that draws. */
  lemma ClaimableCall(g: Granularity, s: State, j: JobId, v: Verdict)
    requires g.PerTransaction? ==> !Locked(s, j)
    requires j in s.db.jobs && s.db.jobs[j].mid.None?
    requires s.db.jobs[j].status.Queued? || s.db.jobs[j].status.Sending? || s.db.jobs[j].status.FailedTransient?
    ensures var s', cache := Call(g, s, j, v), s.provider.cache;
            && |s'.execs| == |s.execs| + 1 && s'.execs[..|s.execs|] == s.execs && s'.execs[|s.execs|].phase.Ended?
            && s'.now == s.now
            && var o := s'.execs[|s.execs|].phase.outcome;
               && (j in cache ==>
                     && o.Returned? && Recorded(s.db, s'.db, j, cache[j].mid, cache[j].at)
                     && s'.provider.cache == cache && s'.provider.providerSends == s.provider.providerSends)
               && (j !in cache && v.Accept? ==>
                     && o.Returned? && Recorded(s.db, s'.db, j, Msg(j), s.now)
                     && s'.provider.cache == cache[j := Entry(Msg(j), s.now)]
                     && s'.provider.providerSends == s.provider.providerSends + 1)
               && (j !in cache && v.Invalid? ==>
                     && o.RaisedPermanent? && Refused(s.db, s'.db, j, SendStatus.FailedPermanent)
                     && s'.provider.cache == cache && s'.provider.providerSends == s.provider.providerSends)
               && (j !in cache && (v.RateLimited? || v.Unavailable?) ==>
                     && o.RaisedTransient? && Refused(s.db, s'.db, j, SendStatus.FailedTransient)
                     && s'.provider.cache == cache && s'.provider.providerSends == s.provider.providerSends)
  {
    var i, s0 := |s.execs|, Next(g, s, Start(j));
    CallStarts(g, s, j);
    StepsRun(g, s0, i, v, 5);
    var s1 := DoStep(g, s0, i, v);
    ClaimTakes(g, s0, i, v, j);
    StepsRun(g, s1, i, v, 4);
    var s' := Run(g, s1, Steps(i, v, 4));
    if j in s.provider.cache {
      HitEnds(g, s1, i, v, j);
    } else {
      MissEnds(g, s1, i, v, j);
    }
    ClaimIsOverwritten(s.db, s1.db, s'.db, j);
    assert s'.execs[..i] == s.execs;
  }

  lemma ClaimIsOverwritten(d: Db, d1: Db, d': Db, j: JobId)
    requires j in d.jobs && (d1 == d || d1 == d.(jobs := d.jobs[j := d.jobs[j].(status := SendStatus.Sending)]))
    ensures forall m, at :: Recorded(d1, d', j, m, at) ==> Recorded(d, d', j, m, at)
    ensures forall status :: Refused(d1, d', j, status) ==> Refused(d, d', j, status)
  {
    forall m, at | Recorded(d1, d', j, m, at) ensures Recorded(d, d', j, m, at) {
      var r := d.jobs[j].(status := SendStatus.Sent, mid := Some(m), sentAt := Some(at));
      assert d1.jobs[j := r] == d.jobs[j := r];
    }
    forall status | Refused(d1, d', j, status) ensures Refused(d, d', j, status) {
      var r := d.jobs[j].(status := status);
      assert d1.jobs[j := r] == d.jobs[j := r];
    }
  }

  lemma ClaimTakes(g: Granularity, s: State, i: nat, v: Verdict, j: JobId)
    requires i < |s.execs| && s.execs[i] == SendExec(j, Claiming) && (g.PerTransaction? ==> !Locked(s, j))
    requires j in s.db.jobs && s.db.jobs[j].mid.None?
    requires s.db.jobs[j].status.Queued? || s.db.jobs[j].status.Sending? || s.db.jobs[j].status.FailedTransient?
    ensures var s' := DoStep(g, s, i, v);
            && s'.execs == s.execs[i := SendExec(j, Looking)] && s'.provider == s.provider && s'.now == s.now
            && InHand(g, s'.db, j)
            && s'.db == if g.PerTransaction? then s.db
                        else s.db.(jobs := s.db.jobs[j := s.db.jobs[j].(status := SendStatus.Sending)])
  {
  }

  lemma HitEnds(g: Granularity, s: State, i: nat, v: Verdict, j: JobId)
    requires i < |s.execs| && s.execs[i] == SendExec(j, Looking) && InHand(g, s.db, j) && j in s.provider.cache
    ensures var s', e := Run(g, s, Steps(i, v, 4)), s.provider.cache[j];
            && OnlyEnded(s, s', i, Returned) && Recorded(s.db, s'.db, j, e.mid, e.at)
            && s'.provider.cache == s.provider.cache && s'.provider.providerSends == s.provider.providerSends
  {
    var e := s.provider.cache[j];
    StepsRun(g, s, i, v, 4);
    var s1 := DoStep(g, s, i, v);
    assert s1.execs == s.execs[i := SendExec(j, Recording(e.mid, e.at))] && s1.db == s.db;
    StepsRun(g, s1, i, v, 3);
    RecordEnds(g, s1, i, v, e.mid, e.at);
    OverStays(g, DoStep(g, s1, i, v), i, v, 2);
  }

  lemma LookMisses(g: Granularity, s: State, i: nat, v: Verdict, j: JobId)
    requires i < |s.execs| && s.execs[i] == SendExec(j, Looking) && j !in s.provider.cache
    ensures var s1 := DoStep(g, s, i, v);
            && s1.execs == s.execs[i := s.execs[i].(phase := Trying)] && s1.db == s.db && s1.now == s.now
            && s1.provider.cache == s.provider.cache && s1.provider.providerSends == s.provider.providerSends
  {
  }

  lemma MissEnds(g: Granularity, s: State, i: nat, v: Verdict, j: JobId)
    requires i < |s.execs| && s.execs[i] == SendExec(j, Looking) && InHand(g, s.db, j) && j !in s.provider.cache
    ensures var s', cache := Run(g, s, Steps(i, v, 4)), s.provider.cache;
            && (exists o :: OnlyEnded(s, s', i, o))
            && var o := s'.execs[i].phase.outcome;
               && (v.Accept? ==>
                     && o.Returned? && Recorded(s.db, s'.db, j, Msg(j), s.now)
                     && s'.provider.cache == cache[j := Entry(Msg(j), s.now)]
                     && s'.provider.providerSends == s.provider.providerSends + 1)
               && (v.Invalid? ==>
                     && o.RaisedPermanent? && Refused(s.db, s'.db, j, SendStatus.FailedPermanent)
                     && s'.provider.cache == cache && s'.provider.providerSends == s.provider.providerSends)
               && (v.RateLimited? || v.Unavailable? ==>
                     && o.RaisedTransient? && Refused(s.db, s'.db, j, SendStatus.FailedTransient)
                     && s'.provider.cache == cache && s'.provider.providerSends == s.provider.providerSends)
  {
    StepsRun(g, s, i, v, 4);
    LookMisses(g, s, i, v, j);
    var s1 := DoStep(g, s, i, v);
    var s' := Run(g, s1, Steps(i, v, 3));
    DrawRunsOn(g, s1, i, v);
    var o :| OnlyEnded(s1, s', i, o);
    MovedThenEnded(s, s1, s', i, Trying, o);
  }

  // ---- what interrupts one, and what others do ----

  /** A crash loses the execution and nothing that is in the tables or at the provider. An exception nobody
      expected is reported as such, and of the transaction it commits the claim. A timeout after the
      acceptance turns into a transient error to be recorded. */
  lemma InterruptionsSpelled(g: Granularity, s: State, i: nat, e: string)
    requires i < |s.execs|
    ensures var p := s.execs[i].phase;
            && Next(g, s, Crash(i)) == s.(execs := s.execs[i := s.execs[i].(phase := Gone)])
            && (p.Recording? ==>
                  Next(g, s, Timeout(i, e)) == s.(execs := s.execs[i := s.execs[i].(phase := RecordingTransient(e))]))
            && (!p.Recording? ==> Next(g, s, Timeout(i, e)) == s)
            && (p.Ended? || p.Gone? ==> Next(g, s, Abort(i, e)) == s)
            && (!p.Ended? && !p.Gone? ==>
                  && OnlyEnded(s, Next(g, s, Abort(i, e)), i, RaisedOther(e))
                  && Next(g, s, Abort(i, e)).provider == s.provider)
    ensures var p, s', j := s.execs[i].phase, Next(g, s, Abort(i, e)), s.execs[i].job;
            if g.PerTransaction? && j in s.db.jobs && !p.Claiming? && !p.ReadingBack? && !p.Ended? && !p.Gone?
               && (s.db.jobs[j].status.Queued? || s.db.jobs[j].status.FailedTransient?)
            then s'.db == s.db.(jobs := s.db.jobs[j := s.db.jobs[j].(status := SendStatus.Sending)])
            else s'.db == s.db
  {
    var j := s.execs[i].job;
    if j in s.db.jobs {
      assert s.db.jobs[j := s.db.jobs[j]] == s.db.jobs;
    }
  }

  /** A job starts queued, with nothing recorded about it; it is cancelled while it is queued and nobody holds
      its row; and both leave every other job, the events and the provider alone. */
  lemma JobsComeAndGo(g: Granularity, s: State, j: JobId, campaign: nat, toAddr: string)
    requires forall i :: 0 <= i < |s.execs| ==> s.execs[i].job != j
    ensures Next(g, s, InsertJob(j, campaign, toAddr)) ==
            if j in s.db.jobs then s
            else s.(db := s.db.(jobs := s.db.jobs[j :=
                EmailJob(campaign, toAddr, SendStatus.Queued, None, None, None, 0, 0, None, None)]))
    ensures Next(g, s, CancelJob(j)) ==
            if j in s.db.jobs && s.db.jobs[j].status.Queued?
            then s.(db := s.db.(jobs := s.db.jobs[j := s.db.jobs[j].(status := SendStatus.Cancelled)]))
            else s
  {
    assert !Locked(s, j);
    if j in s.db.jobs {
      assert s.db.jobs[j := s.db.jobs[j]] == s.db.jobs;
    }
  }

  // ---- over whole runs ----

  /** In this step an execution of j draws v. */
  ghost predicate Draws(s: State, a: Action, j: JobId, v: Verdict) {
    a.Step? && a.exec < |s.execs| && s.execs[a.exec].job == j && s.execs[a.exec].phase.Trying? && a.verdict == v
  }

  /** In this step the response to an accepted execution of j is lost. */
  ghost predicate LosesReply(s: State, a: Action, j: JobId) {
    a.Timeout? && a.exec < |s.execs| && s.execs[a.exec].job == j && s.execs[a.exec].phase.Recording?
  }

  /** Some execution of j has drawn v in the course of the run. */
  ghost predicate DrewIn(g: Granularity, now: real, acts: seq<Action>, j: JobId, v: Verdict) {
    acts != [] &&
    (DrewIn(g, now, acts[..|acts| - 1], j, v) || Draws(Run(g, Init(now), acts[..|acts| - 1]), acts[|acts| - 1], j, v))
  }

  ghost predicate LostReplyIn(g: Granularity, now: real, acts: seq<Action>, j: JobId) {
    acts != [] &&
    (LostReplyIn(g, now, acts[..|acts| - 1], j)
     || LosesReply(Run(g, Init(now), acts[..|acts| - 1]), acts[|acts| - 1], j))
  }

  /** What has happened to j so far, as far as the draws go. */
  datatype Past = Past(invalid: bool, delayed: bool, accepted: bool)

  ghost function PastOf(g: Granularity, now: real, acts: seq<Action>, j: JobId): Past {
    Past(DrewIn(g, now, acts, j, Invalid),
         DrewIn(g, now, acts, j, RateLimited) || DrewIn(g, now, acts, j, Unavailable) || LostReplyIn(g, now, acts, j),
         DrewIn(g, now, acts, j, Accept))
  }

  ghost function Then(s: State, a: Action, j: JobId, past: Past): Past {
    Past(past.invalid || Draws(s, a, j, Invalid),
         past.delayed || Draws(s, a, j, RateLimited) || Draws(s, a, j, Unavailable) || LosesReply(s, a, j),
         past.accepted || Draws(s, a, j, Accept))
  }

  ghost predicate PhaseDrawn(e: SendExec, j: JobId, past: Past) {
    e.job == j ==>
      && (e.phase.RecordingPermanent? ==> past.invalid)
      && (e.phase.RecordingTransient? ==> past.delayed)
      && (e.phase.Putting? || e.phase.Yielding? || e.phase.Recording? ==> past.accepted)
      && (e.phase.Ended? && e.phase.outcome.RaisedTransient? ==> past.delayed)
  }

  ghost predicate Drawn(s: State, j: JobId, past: Past) {
    && (forall i :: 0 <= i < |s.execs| ==> PhaseDrawn(s.execs[i], j, past))
    && (j in s.provider.cache ==> past.accepted)
    && (j in s.db.jobs && s.db.jobs[j].status.FailedPermanent? ==> past.invalid)
    && (j in s.db.jobs && s.db.jobs[j].status.FailedTransient? ==> past.delayed)
  }

  /** A step moves its own execution only. */
  lemma StepMovesOwn(g: Granularity, s: State, i: nat, v: Verdict)
    requires i < |s.execs|
    ensures var s' := DoStep(g, s, i, v);
            && |s'.execs| == |s.execs| && s'.execs[i].job == s.execs[i].job
            && (forall k :: 0 <= k < |s.execs| && k != i ==> s'.execs[k] == s.execs[k])
  {
  }

  lemma RecordStatus(g: Granularity, d: Db, k: JobId, m: MessageId, at: real, j: JobId)
    requires j in MarkSent(Session(g, d, k), k, m, at).jobs
    ensures var status := MarkSent(Session(g, d, k), k, m, at).jobs[j].status;
            j in d.jobs && (status == d.jobs[j].status || status.Sending? || status.Sent?)
  {
  }

  lemma RowStatus(g: Granularity, d: Db, k: JobId, j: JobId)
    requires j in d.jobs
    ensures var mine := Session(g, d, k);
            && (j != k ==> WithRow(mine, k, MarkTransientRow).jobs[j] == d.jobs[j]
                           && WithRow(mine, k, MarkPermanentRow).jobs[j] == d.jobs[j])
            && (var status := WithRow(mine, k, MarkTransientRow).jobs[j].status;
                status == d.jobs[j].status || status.Sending? || status.FailedTransient?)
            && (var status := WithRow(mine, k, MarkPermanentRow).jobs[j].status;
                status == d.jobs[j].status || status.Sending? || status.FailedPermanent?)
  {
  }

  /** Which statement an execution runs on the tables, by where it stands. */
  lemma StepWrites(g: Granularity, s: State, i: nat, v: Verdict)
    requires i < |s.execs|
    ensures var d, p, k := DoStep(g, s, i, v).db, s.execs[i].phase, s.execs[i].job;
            && (p.RecordingTransient? ==> d == WithRow(Session(g, s.db, k), k, MarkTransientRow))
            && (p.RecordingPermanent? ==> d == WithRow(Session(g, s.db, k), k, MarkPermanentRow))
            && (p.Recording? || p.Recovering? ==> exists m, at :: d == MarkSent(Session(g, s.db, k), k, m, at))
            && (!p.RecordingTransient? && !p.RecordingPermanent? && !p.Recording? && !p.Recovering? ==>
                  d == s.db || d == WithRow(s.db, k, ClaimRow))
  {
    var k := s.execs[i].job;
    match s.execs[i].phase
    case Recovering(m) => assert DoStep(g, s, i, v).db == MarkSent(Session(g, s.db, k), k, m, s.now);
    case Recording(m, at) => assert DoStep(g, s, i, v).db == MarkSent(Session(g, s.db, k), k, m, at);
    case _ =>
  }

  /** What a step may do to the status of a job, given where its execution stands. */
  lemma StepStatus(g: Granularity, s: State, i: nat, v: Verdict, j: JobId)
    requires i < |s.execs| && j in DoStep(g, s, i, v).db.jobs
    ensures var p, status := s.execs[i].phase, DoStep(g, s, i, v).db.jobs[j].status;
            && j in s.db.jobs
            && (status.FailedPermanent? ==>
                  s.db.jobs[j].status.FailedPermanent? || (j == s.execs[i].job && p.RecordingPermanent?))
            && (status.FailedTransient? ==>
                  s.db.jobs[j].status.FailedTransient? || (j == s.execs[i].job && p.RecordingTransient?))
  {
    var d, p, k := DoStep(g, s, i, v).db, s.execs[i].phase, s.execs[i].job;
    StepWrites(g, s, i, v);
    if p.Recording? || p.Recovering? {
      var m, at :| d == MarkSent(Session(g, s.db, k), k, m, at);
      RecordStatus(g, s.db, k, m, at, j);
    } else {
      assert j in s.db.jobs;
      RowStatus(g, s.db, k, j);
    }
  }

  lemma StepKey(g: Granularity, s: State, i: nat, v: Verdict, j: JobId)
    requires i < |s.execs| && ExecOk(g, s, s.execs[i]) && j in DoStep(g, s, i, v).provider.cache
    ensures j in s.provider.cache || (j == s.execs[i].job && s.execs[i].phase.Putting?)
  {
  }

  lemma RollPhase(s: State, i: nat, v: Verdict, past: Past)
    requires i < |s.execs| && s.execs[i].phase.Trying?
    ensures PhaseDrawn(DoRoll(s, i, v).execs[i], s.execs[i].job, Then(s, Step(i, v), s.execs[i].job, past))
  {
    match v
    case Accept => case Invalid => case RateLimited => case Unavailable =>
  }

  lemma StepPhase(g: Granularity, s: State, i: nat, v: Verdict, past: Past)
    requires i < |s.execs| && ExecOk(g, s, s.execs[i]) && PhaseDrawn(s.execs[i], s.execs[i].job, past)
    requires s.execs[i].job in s.provider.cache ==> past.accepted
    ensures PhaseDrawn(DoStep(g, s, i, v).execs[i], s.execs[i].job, Then(s, Step(i, v), s.execs[i].job, past))
  {
    if s.execs[i].phase.Trying? {
      RollPhase(s, i, v, past);
    } else {
      RestPhase(g, s, i, v, past);
    }
  }

  lemma RestPhase(g: Granularity, s: State, i: nat, v: Verdict, past: Past)
    requires i < |s.execs| && ExecOk(g, s, s.execs[i]) && PhaseDrawn(s.execs[i], s.execs[i].job, past)
    requires s.execs[i].job in s.provider.cache ==> past.accepted
    requires !s.execs[i].phase.Trying?
    ensures PhaseDrawn(DoStep(g, s, i, v).execs[i], s.execs[i].job, past)
  {
  }

  lemma StepDrawn(g: Granularity, s: State, i: nat, v: Verdict, j: JobId, past: Past)
    requires Core(g, s) && i < |s.execs| && Drawn(s, j, past)
    ensures Drawn(DoStep(g, s, i, v), j, Then(s, Step(i, v), j, past))
  {
    var s', past' := DoStep(g, s, i, v), Then(s, Step(i, v), j, past);
    StepMovesOwn(g, s, i, v);
    assert ExecOk(g, s, s.execs[i]) && PhaseDrawn(s.execs[i], j, past);
    forall k | 0 <= k < |s'.execs| ensures PhaseDrawn(s'.execs[k], j, past') {
      assert PhaseDrawn(s.execs[k], j, past);
      if k == i && s.execs[i].job == j {
        StepPhase(g, s, i, v, past);
      }
    }
    if j in s'.db.jobs {
      StepStatus(g, s, i, v, j);
    }
    if j in s'.provider.cache {
      StepKey(g, s, i, v, j);
    }
  }

  lemma OtherDrawn(g: Granularity, s: State, a: Action, j: JobId, past: Past)
    requires Drawn(s, j, past) && !a.Step?
    ensures Drawn(Next(g, s, a), j, Then(s, a, j, past))
  {
    var s', past' := Next(g, s, a), Then(s, a, j, past);
    forall k | 0 <= k < |s'.execs| ensures PhaseDrawn(s'.execs[k], j, past') {
      assert k < |s.execs| ==> PhaseDrawn(s.execs[k], j, past);
    }
    OtherStatuses(g, s, a, j);
  }

  lemma OtherStatuses(g: Granularity, s: State, a: Action, j: JobId)
    requires !a.Step?
    ensures var s' := Next(g, s, a);
            && s'.provider == s.provider
            && (j in s'.db.jobs && (s'.db.jobs[j].status.FailedPermanent? || s'.db.jobs[j].status.FailedTransient?) ==>
                  j in s.db.jobs && s.db.jobs[j].status == s'.db.jobs[j].status)
  {
    if a.Process? || a.Sweep? {
      ProcessKeepsIdentity(s.db, a.id, s.now);
    }
  }

  lemma NextDrawn(g: Granularity, s: State, a: Action, j: JobId, past: Past)
    requires Core(g, s) && Drawn(s, j, past)
    ensures Drawn(Next(g, s, a), j, Then(s, a, j, past))
  {
    if a.Step? && a.exec < |s.execs| {
      StepDrawn(g, s, a.exec, a.verdict, j, past);
    } else if !a.Step? {
      OtherDrawn(g, s, a, j, past);
    }
  }

  lemma {:induction false} RunDrawn(g: Granularity, now: real, acts: seq<Action>, j: JobId)
    ensures Drawn(Run(g, Init(now), acts), j, PastOf(g, now, acts, j))
  {
    if acts != [] {
      var init := acts[..|acts| - 1];
      var s := Run(g, Init(now), init);
      RunDrawn(g, now, init, j);
      assert Reachable(g, s);
      ReachableInv(g, s);
      NextDrawn(g, s, acts[|acts| - 1], j, PastOf(g, now, init, j));
    }
  }

  /** Every failure and every acceptance has its draw: over every run, at either granularity, a job fails for
      good only if an execution of it drew an invalid recipient, is put off only if one drew a rate limit or an
      outage or lost the reply, and its key is accepted only if one drew an acceptance. */
  lemma OutcomesAreDrawn(g: Granularity, now: real, acts: seq<Action>, j: JobId)
    ensures var s := Run(g, Init(now), acts);
            && (j in s.db.jobs && s.db.jobs[j].status.FailedPermanent? ==> DrewIn(g, now, acts, j, Invalid))
            && (j in s.db.jobs && s.db.jobs[j].status.FailedTransient? ==>
                  DrewIn(g, now, acts, j, RateLimited) || DrewIn(g, now, acts, j, Unavailable)
                  || LostReplyIn(g, now, acts, j))
            && (j in s.provider.cache ==> DrewIn(g, now, acts, j, Accept))
  {
    RunDrawn(g, now, acts, j);
  }
}
