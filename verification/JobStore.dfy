/** packages/shared/job_store.py: the guarded updates of email_jobs, and the adoption of early webhooks. */
module JobStore {
  import opened Prelude
  import opened Transitions
  import opened Models

  // ---- one row under one statement ----

  function ClaimRow(r: EmailJob): EmailJob {
    if r.status in CLAIMABLE then r.(status := SendStatus.Sending) else r
  }

  function MarkSentRow(r: EmailJob, m: MessageId, at: real): EmailJob {
    if r.status == SendStatus.Sending then
      r.(status := SendStatus.Sent, mid := Some(m), sentAt := Some(at))
    else r
  }

  function MarkTransientRow(r: EmailJob): EmailJob {
    if r.status == SendStatus.Sending then r.(status := SendStatus.FailedTransient) else r
  }

  function MarkPermanentRow(r: EmailJob): EmailJob {
    if r.status == SendStatus.Sending then r.(status := SendStatus.FailedPermanent) else r
  }

  /** One row under the UPDATE of cancel_campaign. */
  function CancelRow(r: EmailJob): EmailJob {
    if r.status == SendStatus.Queued then r.(status := SendStatus.Cancelled) else r
  }

  /** Every statement on send_status either leaves it or takes an edge of SEND_TRANSITIONS. */
  lemma StatementsFollowTheTable(r: EmailJob, m: MessageId, at: real)
    ensures ClaimRow(r).status == r.status || CanTransitionSend(r.status, ClaimRow(r).status)
    ensures MarkSentRow(r, m, at).status == r.status || CanTransitionSend(r.status, MarkSentRow(r, m, at).status)
    ensures MarkTransientRow(r).status == r.status || CanTransitionSend(r.status, MarkTransientRow(r).status)
    ensures MarkPermanentRow(r).status == r.status || CanTransitionSend(r.status, MarkPermanentRow(r).status)
    ensures CancelRow(r).status == r.status || CanTransitionSend(r.status, CancelRow(r).status)
  {
    var fromSending := Some({SendStatus.Sending});
    assert SendPredecessors(SendStatus.Sent) == fromSending;
  }

  // ---- the tables under one statement ----

  function UpdateJob(d: Db, j: JobId, r: EmailJob): Db {
    d.(jobs := d.jobs[j := r])
  }

  ghost predicate Adoptable(d: Db, e: EventId, m: MessageId) {
    e in d.events && d.events[e].mid == m && d.events[e].job.None?
  }

  function Adopt(events: map<EventId, EventRow>, m: MessageId, j: JobId): map<EventId, EventRow> {
    map e | e in events ::
      if events[e].mid == m && events[e].job.None? then events[e].(job := Some(j)) else events[e]
  }

  function MarkSent(d: Db, j: JobId, m: MessageId, at: real): Db {
    if j in d.jobs && d.jobs[j].status == SendStatus.Sending then
      UpdateJob(d, j, MarkSentRow(d.jobs[j], m, at)).(events := Adopt(d.events, m, j))
    else d
  }

  /** The open session over the three tables. */
  class Database {
    var jobs: map<JobId, EmailJob>
    var events: map<EventId, EventRow>
    var engagements: seq<Engagement>
    ghost var applied: map<EventId, JobId>

    constructor ()
      ensures View() == Db(map[], map[], [], map[])
    {
      jobs, events, engagements, applied := map[], map[], [], map[];
    }

    ghost function View(): Db
      reads this
    {
      Db(jobs, events, engagements, applied)
    }
  }

  /** SQLAlchemyJobStore. */
  class SqlJobStore {
    const db: Database

    constructor (db: Database)
      ensures this.db == db
    {
      this.db := db;
    }

    /** Returns the claimed row, or None when the guard matched nothing. */
    method Claim(j: JobId) returns (claimed: Option<EmailJob>)
      modifies db
      ensures j in old(db.jobs) && old(db.jobs)[j].status in CLAIMABLE ==>
                claimed == Some(ClaimRow(old(db.jobs)[j])) &&
                db.View() == UpdateJob(old(db.View()), j, ClaimRow(old(db.jobs)[j]))
      ensures !(j in old(db.jobs) && old(db.jobs)[j].status in CLAIMABLE) ==>
                claimed == None && db.View() == old(db.View())
      ensures claimed.Some? <==>
                j in old(db.jobs)
                && (old(db.jobs)[j].status.Queued? || old(db.jobs)[j].status.Sending?
                    || old(db.jobs)[j].status.FailedTransient?)
      ensures claimed.Some? ==>
                && claimed.value == old(db.jobs)[j].(status := SendStatus.Sending)
                && db.jobs == old(db.jobs)[j := claimed.value]
                && db.events == old(db.events) && db.engagements == old(db.engagements)
    {
      if j in db.jobs && db.jobs[j].status in CLAIMABLE {
        db.jobs := db.jobs[j := db.jobs[j].(status := SendStatus.Sending)];
        return Some(db.jobs[j]);
      }
      return None;
    }

    /** Returns how many early events were adopted; an adoption happens only with the transition. */
    method MarkAsSent(j: JobId, m: MessageId, at: real) returns (adopted: nat)
      modifies db
      ensures db.View() == MarkSent(old(db.View()), j, m, at)
      ensures adopted == if j in old(db.jobs) && old(db.jobs)[j].status == SendStatus.Sending
                         then |set e | Adoptable(old(db.View()), e, m) && e in old(db.events)| else 0
      ensures j in old(db.jobs) && old(db.jobs)[j].status == SendStatus.Sending ==>
                forall e :: !Adoptable(db.View(), e, m)
      ensures j in old(db.jobs) && old(db.jobs)[j].status.Sending? ==>
                && db.jobs == old(db.jobs)[j :=
                     old(db.jobs)[j].(status := SendStatus.Sent, mid := Some(m), sentAt := Some(at))]
                && db.events.Keys == old(db.events).Keys && db.engagements == old(db.engagements)
                && forall e :: e in old(db.events) ==>
                     var r := old(db.events)[e];
                     db.events[e] == if r.mid == m && r.job.None? then r.(job := Some(j)) else r
      ensures !(j in old(db.jobs) && old(db.jobs)[j].status.Sending?) ==> db.View() == old(db.View())
    {
      if j !in db.jobs || db.jobs[j].status != SendStatus.Sending {
        return 0;
      }
      db.jobs := db.jobs[j := db.jobs[j].(status := SendStatus.Sent, mid := Some(m), sentAt := Some(at))];
      var orphans := set e | e in db.events && db.events[e].mid == m && db.events[e].job.None?;
      assert orphans == set e | Adoptable(old(db.View()), e, m) && e in old(db.events);
      db.events := map e | e in db.events ::
        if e in orphans then db.events[e].(job := Some(j)) else db.events[e];
      return |orphans|;
    }

    method MarkTransient(j: JobId)
      modifies db
      ensures db.View() == if j in old(db.jobs)
                           then UpdateJob(old(db.View()), j, MarkTransientRow(old(db.jobs)[j])) else old(db.View())
      ensures db.jobs == if j in old(db.jobs) && old(db.jobs)[j].status.Sending?
                         then old(db.jobs)[j := old(db.jobs)[j].(status := SendStatus.FailedTransient)]
                         else old(db.jobs)
    {
      if j in db.jobs && db.jobs[j].status == SendStatus.Sending {
        db.jobs := db.jobs[j := db.jobs[j].(status := SendStatus.FailedTransient)];
      } else if j in db.jobs {
        assert db.jobs == db.jobs[j := db.jobs[j]];
      }
    }

    method MarkPermanent(j: JobId)
      modifies db
      ensures db.View() == if j in old(db.jobs)
                           then UpdateJob(old(db.View()), j, MarkPermanentRow(old(db.jobs)[j])) else old(db.View())
      ensures db.jobs == if j in old(db.jobs) && old(db.jobs)[j].status.Sending?
                         then old(db.jobs)[j := old(db.jobs)[j].(status := SendStatus.FailedPermanent)]
                         else old(db.jobs)
    {
      if j in db.jobs && db.jobs[j].status == SendStatus.Sending {
        db.jobs := db.jobs[j := db.jobs[j].(status := SendStatus.FailedPermanent)];
      } else if j in db.jobs {
        assert db.jobs == db.jobs[j := db.jobs[j]];
      }
    }

    method Get(j: JobId) returns (found: Option<EmailJob>)
      ensures found == if j in db.jobs then Some(db.jobs[j]) else None
    {
      return if j in db.jobs then Some(db.jobs[j]) else None;
    }
  }
}
