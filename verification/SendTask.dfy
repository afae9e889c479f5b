/** services/worker/tasks/send.py and services/worker/main.py as one undisturbed call. The interleaved
    form is SendMachine; both are built from the same row functions. */
module SendTask {
  import opened Prelude
  import opened Transitions
  import opened Models
  import opened JobStore
  import opened FakeProvider
  import opened Worker
  import opened SendMachine

  /** The database after the claim of j. */
  function Claimed(d: Db, j: JobId): Db {
    WithRow(d, j, ClaimRow)
  }

  predicate Claimable(d: Db, j: JobId) {
    j in d.jobs && d.jobs[j].status in CLAIMABLE
  }

  /** Claimable, and not known to have been sent. */
  predicate Sendable(d: Db, j: JobId) {
    Claimable(d, j) && d.jobs[j].mid.None?
  }

  /** Where a worker process can die within one call: before a phase, or before the final commit. */
  datatype Stage = BeforeClaim | BeforeSend | BeforeRecord | BeforeCommit

  /** Nothing has been sent without its key, and no key has been forgotten or rewritten. */
  twostate predicate ProviderGrows(provider: FakeEmailProvider)
    reads provider
  {
    && provider.providerSends - |provider.cache| == old(provider.providerSends) - |old(provider.cache)|
    && forall k :: k in old(provider.cache) ==> k in provider.cache && provider.cache[k] == old(provider.cache)[k]
  }

  /** Phase 3 and the two except branches: what a response leaves in the tables. */
  function RecordedDb(d: Db, j: JobId, response: SendResult): Db {
    match response
    case Response(mid, at, _) => MarkSent(d, j, mid, at)
    case TransientProviderError => WithRow(d, j, MarkTransientRow)
    case PermanentProviderError => WithRow(d, j, MarkPermanentRow)
  }

  method RecordOutcome(store: SqlJobStore, j: JobId, response: SendResult) returns (outcome: Outcome, resent: bool)
    modifies store.db
    ensures store.db.View() == RecordedDb(old(store.db.View()), j, response)
    ensures response.Response? ==> outcome.Returned? && resent == response.replay
    ensures response.TransientProviderError? ==> outcome.RaisedTransient?
    ensures response.PermanentProviderError? ==> outcome.RaisedPermanent?
  {
    match response {
      case TransientProviderError =>
        store.MarkTransient(j);
        return RaisedTransient("transient provider error"), false;
      case PermanentProviderError =>
        store.MarkPermanent(j);
        return RaisedPermanent("permanent provider error"), false;
      case Response(mid, at, replay) =>
        var _ := store.MarkAsSent(j, mid, at);
        return Returned, replay;
    }
  }

  /** Phases 2 and 3 on a job this worker has claimed. */
  method SendAndRecord(store: SqlJobStore, provider: FakeEmailProvider, j: JobId, verdict: Verdict, now: real,
      rival: Option<real>, dies: Option<Stage>)
    returns (finished: bool, outcome: Outcome, resent: bool)
    requires j in store.db.jobs && store.db.jobs[j].status == SendStatus.Sending
    modifies store.db, provider
    ensures finished <==> dies != Some(BeforeRecord)
    ensures finished && (j in old(provider.cache) || verdict.Accept?) ==>
              && outcome.Returned? && j in provider.cache
              && (resent <==> j in old(provider.cache) || rival.Some?)
              && store.db.View() == MarkSent(old(store.db.View()), j, provider.cache[j].mid, provider.cache[j].at)
    ensures finished && j !in old(provider.cache) && verdict.Invalid? ==>
              outcome.RaisedPermanent? && store.db.View() == WithRow(old(store.db.View()), j, MarkPermanentRow)
    ensures finished && j !in old(provider.cache) && (verdict.RateLimited? || verdict.Unavailable?) ==>
              outcome.RaisedTransient? && store.db.View() == WithRow(old(store.db.View()), j, MarkTransientRow)
    ensures !finished ==> (j in old(provider.cache) || verdict.Accept? ==> j in provider.cache)
    ensures ProviderGrows(provider)
  {
    var response := provider.Send(j, verdict, now, rival);
    if dies == Some(BeforeRecord) {
      return false, Returned, false;
    }
    finished := true;
    outcome, resent := RecordOutcome(store, j, response);
  }

  /** send_email_task. The draw `verdict` and the overtaking sender `rival` are the provider's; `dies` says
      where the process dies, if it does. A call that returns or raises has `finished`. */
  method SendEmailTask(store: SqlJobStore, provider: FakeEmailProvider, j: JobId, verdict: Verdict, now: real,
      rival: Option<real>, dies: Option<Stage>)
    returns (finished: bool, outcome: Outcome, resent: bool)
    modifies store.db, provider
    ensures dies.None? || dies.value.BeforeCommit? ==> finished
    // nothing to claim: report the settled state and leave everything alone
    ensures finished && !Claimable(old(store.db.View()), j) ==>
              && store.db.View() == old(store.db.View()) && provider.View() == old(provider.View())
              && (outcome.Returned? <==> j in old(store.db.jobs))
              && (outcome.RaisedPermanent? <==> j !in old(store.db.jobs))
    // an unrecorded send: record it, do not send again
    ensures finished && Claimable(old(store.db.View()), j) && old(store.db.jobs)[j].mid.Some? ==>
              && outcome.Returned? && provider.View() == old(provider.View())
              && store.db.View() == MarkSent(Claimed(old(store.db.View()), j), j, old(store.db.jobs)[j].mid.value, now)
    // otherwise the provider decides
    ensures finished && Sendable(old(store.db.View()), j) && (j in old(provider.cache) || verdict.Accept?) ==>
              && outcome.Returned? && j in provider.cache
              && (resent <==> j in old(provider.cache) || rival.Some?)
              && store.db.View() ==
                   MarkSent(Claimed(old(store.db.View()), j), j, provider.cache[j].mid, provider.cache[j].at)
              && store.db.jobs[j].status == SendStatus.Sent
    ensures finished && Sendable(old(store.db.View()), j) && j !in old(provider.cache) && verdict.Invalid? ==>
              && outcome.RaisedPermanent?
              && store.db.View() == WithRow(Claimed(old(store.db.View()), j), j, MarkPermanentRow)
              && store.db.jobs[j].status == SendStatus.FailedPermanent
    ensures finished && Sendable(old(store.db.View()), j) && j !in old(provider.cache)
              && (verdict.RateLimited? || verdict.Unavailable?) ==>
              && outcome.RaisedTransient?
              && store.db.View() == WithRow(Claimed(old(store.db.View()), j), j, MarkTransientRow)
              && store.db.jobs[j].status == SendStatus.FailedTransient
    // a process that dies: before the provider is called it has not been; before the record, it has
    ensures !finished && !dies.value.BeforeRecord? ==> provider.View() == old(provider.View())
    ensures !finished && dies.value.BeforeRecord? ==>
              Claimable(old(store.db.View()), j) && (j in old(provider.cache) || verdict.Accept? ==>
                j in provider.cache || old(store.db.jobs)[j].mid.Some?)
    ensures ProviderGrows(provider)
  {
    finished, resent, outcome := false, false, Returned;
    if dies == Some(BeforeClaim) {
      return;
    }
    var claimed := store.Claim(j);
    if claimed.None? {
      var existing := store.Get(j);
      if existing.None? {
        return true, RaisedPermanent("email job does not exist"), false;
      }
      return true, Returned, false;
    }
    if claimed.value.mid.Some? {
      if dies == Some(BeforeRecord) {
        return;
      }
      var _ := store.MarkAsSent(j, claimed.value.mid.value, now);
      return true, Returned, false;
    }
    if dies == Some(BeforeSend) {
      return;
    }
    finished, outcome, resent := SendAndRecord(store, provider, j, verdict, now, rival, dies);
  }

  /** handle_send_email: one commit at the end. A worker that dies anywhere before it loses its whole
      transaction, and with it the claim; what the provider accepted by then stays accepted, and the job
      can be claimed again. */
  method HandleSendEmail(store: SqlJobStore, provider: FakeEmailProvider, j: JobId, verdict: Verdict, now: real,
      rival: Option<real>, dies: Option<Stage>)
    returns (committed: bool, outcome: Outcome)
    modifies store.db, provider
    ensures dies.None? ==> committed
    ensures !committed ==> store.db.View() == old(store.db.View())
    ensures !committed && (dies.value.BeforeClaim? || dies.value.BeforeSend?) ==>
        provider.View() == old(provider.View())
    ensures !committed && (dies.value.BeforeRecord? || dies.value.BeforeCommit?)
              && Sendable(old(store.db.View()), j) && verdict.Accept? ==>
              j in provider.cache && Claimable(store.db.View(), j)
    ensures committed && Sendable(old(store.db.View()), j) && outcome.Returned? ==>
              && j in provider.cache && j in store.db.jobs && store.db.jobs[j].status == SendStatus.Sent
              && store.db.jobs[j].mid == Some(provider.cache[j].mid)
    ensures ProviderGrows(provider)
  {
    var jobs, events, engagements := store.db.jobs, store.db.events, store.db.engagements;
    ghost var applied := store.db.applied;
    var finished, resent;
    finished, outcome, resent := SendEmailTask(store, provider, j, verdict, now, rival, dies);
    committed := finished && dies != Some(BeforeCommit);
    if !committed {
      store.db.jobs, store.db.events, store.db.engagements := jobs, events, engagements;
      store.db.applied := applied;
    }
  }
}
