/** packages/shared/models.py: the rows the send pipeline and the webhooks share. */
module Models {
  import opened Prelude
  import opened Transitions

  type JobId = nat

  /** The provider derives a message id from the idempotency key by hashing; the key is the job
      id, and the hash is taken to be injective. */
  datatype MessageId = Msg(key: JobId)

  datatype EventKind =
    | EvSent | EvDelivered | EvDeferred | EvBounced | EvComplained | Opened | Clicked | Unknown(name: string)

  /** Likewise an event id is an injective hash of what the event says. */
  datatype EventId = Evt(mid: MessageId, kind: EventKind, occurredAt: real)

  datatype EmailJob = EmailJob(
    campaign: nat,
    toAddr: string,
    status: SendStatus,
    delivery: Option<DeliveryStatus>,
    mid: Option<MessageId>,
    sentAt: Option<real>,
    opens: nat,
    clicks: nat,
    firstOpened: Option<real>,
    firstClicked: Option<real>)

  /** What a webhook carries. */
  datatype Event = Event(id: EventId, mid: MessageId, kind: EventKind, occurredAt: real)

  /** A row of provider_events; the map key of the table is its unique provider_event_id. */
  datatype EventRow = EventRow(
    mid: MessageId,
    kind: EventKind,
    occurredAt: real,
    receivedAt: real,
    job: Option<JobId>,
    processedAt: Option<real>,
    attempts: nat)

  datatype Engagement = Engagement(job: JobId, kind: EventKind, occurredAt: real)

  /** The three tables, and one history variable: `applied` says which job an event was applied
      to. It is not a column: a row abandoned by the sweeper can later be adopted, and then has
      both `processedAt` and `job` set without ever having been applied. */
  datatype Db = Db(
    jobs: map<JobId, EmailJob>,
    events: map<EventId, EventRow>,
    engagements: seq<Engagement>,
    applied: map<EventId, JobId>)

  /** The unique constraint on email_jobs.provider_message_id. */
  ghost predicate UniqueMids(jobs: map<JobId, EmailJob>) {
    forall i, j :: i in jobs && j in jobs && jobs[i].mid.Some? && jobs[i].mid == jobs[j].mid ==> i == j
  }

  function NewJob(campaign: nat, toAddr: string): EmailJob {
    EmailJob(campaign, toAddr, SendStatus.Queued, None, None, None, 0, 0, None, None)
  }
}
