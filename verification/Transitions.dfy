/** packages/shared/transitions.py: the status tables of an email job. */
module Transitions {
  import opened Prelude

  datatype SendStatus =
    | Queued | Sending | Sent | FailedTransient | FailedPermanent | Cancelled | Skipped

  datatype DeliveryStatus = Deferred | Delivered | Bounced | Complained

  const SEND_TERMINAL: set<SendStatus> :=
    {SendStatus.Sent, SendStatus.FailedPermanent, SendStatus.Cancelled, SendStatus.Skipped}

  /** The guard of the claim statement. */
  const CLAIMABLE: set<SendStatus> :=
    {SendStatus.Queued, SendStatus.Sending, SendStatus.FailedTransient}

  /** SEND_TRANSITIONS: target status to allowed predecessors; `queued` is nobody's target. */
  function SendPredecessors(to: SendStatus): Option<set<SendStatus>> {
    match to
    case Queued => None
    case Sending => Some({SendStatus.Queued, SendStatus.Sending, SendStatus.FailedTransient})
    case Sent => Some({SendStatus.Sending})
    case FailedTransient => Some({SendStatus.Sending})
    case FailedPermanent => Some({SendStatus.Sending, SendStatus.Queued})
    case Cancelled => Some({SendStatus.Queued, SendStatus.FailedTransient})
    case Skipped => Some({SendStatus.Queued})
  }

  predicate CanTransitionSend(frm: SendStatus, to: SendStatus) {
    SendPredecessors(to).Some? && frm in SendPredecessors(to).value
  }

  function DeliveryRank(s: Option<DeliveryStatus>): nat {
    match s
    case None => 0
    case Some(Deferred) => 1
    case Some(Delivered) => 3
    case Some(Bounced) => 90
    case Some(Complained) => 95
  }

  predicate Outranks(new_: DeliveryStatus, current: Option<DeliveryStatus>) {
    DeliveryRank(Some(new_)) > DeliveryRank(current)
  }

  /** The edges of SEND_TRANSITIONS, one by one. */
  const SEND_EDGES: set<(SendStatus, SendStatus)> := {
    (SendStatus.Queued, SendStatus.Sending), (SendStatus.Sending, SendStatus.Sending),
    (SendStatus.FailedTransient, SendStatus.Sending), (SendStatus.Sending, SendStatus.Sent),
    (SendStatus.Sending, SendStatus.FailedTransient), (SendStatus.Sending, SendStatus.FailedPermanent),
    (SendStatus.Queued, SendStatus.FailedPermanent), (SendStatus.Queued, SendStatus.Cancelled),
    (SendStatus.FailedTransient, SendStatus.Cancelled), (SendStatus.Queued, SendStatus.Skipped)}

  /** The table read backwards is the graph of the edges. */
  lemma TableIsTheGraph(frm: SendStatus, to: SendStatus)
    ensures CanTransitionSend(frm, to) <==> (frm, to) in SEND_EDGES
  {
    match to
    case Queued => case Sending => case Sent => case FailedTransient =>
    case FailedPermanent => case Cancelled => case Skipped =>
  }

  /** Complained outranks bounced outranks delivered outranks deferred outranks nothing, whatever the
      numbers are; an event applies exactly if it is later in that list. */
  lemma RanksByName(new_: DeliveryStatus, current: Option<DeliveryStatus>)
    ensures Outranks(new_, None)
    ensures !Outranks(Deferred, Some(new_))
    ensures Outranks(Delivered, current) <==> current == None || current == Some(Deferred)
    ensures Outranks(Bounced, current) <==> current != Some(Bounced) && current != Some(Complained)
    ensures Outranks(Complained, current) <==> current != Some(Complained)
  {
  }

  /** A terminal send status is one that no table entry lets a job leave. */
  lemma TerminalIffNoSuccessor(s: SendStatus)
    ensures s in SEND_TERMINAL <==> forall to :: !CanTransitionSend(s, to)
    ensures s in SEND_TERMINAL <==> s !in CLAIMABLE
  {
    assert s == SendStatus.Queued ==> CanTransitionSend(s, SendStatus.Sending);
    assert s == SendStatus.Sending ==> CanTransitionSend(s, SendStatus.Sending);
    assert s == SendStatus.FailedTransient ==> CanTransitionSend(s, SendStatus.Sending);
  }
}
