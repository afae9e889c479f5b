/** services/api/routers/campaigns.py, cancel_campaign: one UPDATE over the queued jobs of a campaign. */
module Cancellation {
  import opened Prelude
  import opened Transitions
  import opened Models
  import opened JobStore
  import opened SendMachine
  import opened SendTheorems

  predicate Recallable(r: EmailJob, campaign: nat) {
    r.campaign == campaign && r.status == SendStatus.Queued
  }

  function CancelAll(jobs: map<JobId, EmailJob>, campaign: nat): map<JobId, EmailJob> {
    map j | j in jobs :: if jobs[j].campaign == campaign then CancelRow(jobs[j]) else jobs[j]
  }

  method CancelCampaign(db: Database, campaign: nat)
    modifies db`jobs
    ensures db.jobs == CancelAll(old(db.jobs), campaign)
    ensures db.jobs.Keys == old(db.jobs).Keys && forall j :: j in old(db.jobs) ==>
              db.jobs[j] == if old(db.jobs)[j].campaign == campaign && old(db.jobs)[j].status.Queued?
                            then old(db.jobs)[j].(status := SendStatus.Cancelled) else old(db.jobs)[j]
  {
    db.jobs := map j | j in db.jobs ::
      if db.jobs[j].campaign == campaign && db.jobs[j].status == SendStatus.Queued
      then db.jobs[j].(status := SendStatus.Cancelled) else db.jobs[j];
  }

  function CancelThese(jobs: map<JobId, EmailJob>, these: seq<JobId>): map<JobId, EmailJob> {
    map j | j in jobs :: if j in these then CancelRow(jobs[j]) else jobs[j]
  }

  function CancelActions(these: seq<JobId>): (acts: seq<Action>)
    ensures |acts| == |these|
  {
    seq(|these|, k requires 0 <= k < |these| => CancelJob(these[k]))
  }

  lemma {:induction false} CancellingOneByOne(g: Granularity, s: State, these: seq<JobId>)
    requires forall i, k :: 0 <= i < k < |these| ==> these[i] != these[k]
    requires forall j :: j in these ==> j in s.db.jobs && (g.PerTransaction? ==> !Locked(s, j))
    ensures Run(g, s, CancelActions(these)) == s.(db := s.db.(jobs := CancelThese(s.db.jobs, these)))
  {
    if these == [] {
      assert CancelThese(s.db.jobs, these) == s.db.jobs;
    } else {
      var init, j := these[..|these| - 1], these[|these| - 1];
      CancellingOneByOne(g, s, init);
      assert CancelActions(these)[..|these| - 1] == CancelActions(init);
      var before := CancelThese(s.db.jobs, init);
      assert before[j := CancelRow(before[j])] == CancelThese(s.db.jobs, these);
      assert these == init + [j];
      CancelsOne(g, s, s.(db := s.db.(jobs := before)), j);
    }
  }

  lemma CancelsOne(g: Granularity, s: State, u: State, j: JobId)
    requires u.execs == s.execs && j in u.db.jobs && (g.PerTransaction? ==> !Locked(s, j))
    ensures Next(g, u, CancelJob(j)) == u.(db := u.db.(jobs := u.db.jobs[j := CancelRow(u.db.jobs[j])]))
  {
  }

  /** The UPDATE waits for the row locks of the rows it is going to change. */
  ghost predicate MayUpdate(g: Granularity, s: State, campaign: nat) {
    g.PerTransaction? ==> forall j :: j in s.db.jobs && Recallable(s.db.jobs[j], campaign) ==> !Locked(s, j)
  }

  /** When it may run, the UPDATE is a run of single-row cancellations. */
  lemma CancelIsARun(g: Granularity, s: State, campaign: nat) returns (acts: seq<Action>)
    requires MayUpdate(g, s, campaign)
    ensures Run(g, s, acts) == s.(db := s.db.(jobs := CancelAll(s.db.jobs, campaign)))
  {
    var ids := set j | j in s.db.jobs && Recallable(s.db.jobs[j], campaign);
    var these := Enumerate(ids);
    CancellingOneByOne(g, s, these);
    assert CancelThese(s.db.jobs, these) == CancelAll(s.db.jobs, campaign);
    acts := CancelActions(these);
  }

  /** Cancelling a campaign recalls exactly its queued jobs: they stay cancelled in every later run, the
      provider accepts none of them that it had not accepted before, and every job that has left `queued`
      is as it was. With every store call durable at once none of them has ever been claimed, so none is
      ever sent. */
  lemma CancelCampaignRecalls(g: Granularity, s: State, campaign: nat, later: seq<Action>)
    requires Reachable(g, s) && MayUpdate(g, s, campaign)
    ensures var s' := s.(db := s.db.(jobs := CancelAll(s.db.jobs, campaign)));
            && Reachable(g, s')
            && (forall j :: j in s.db.jobs && Recallable(s.db.jobs[j], campaign) ==>
                  && IsCancelled(Run(g, s', later), j)
                  && (j in Run(g, s', later).provider.cache <==> j in s.provider.cache)
                  && (g.PerStatement? ==> j !in s.claimed && j !in s.provider.cache))
            && (forall j :: j in s.db.jobs && !Recallable(s.db.jobs[j], campaign) ==> s'.db.jobs[j] == s.db.jobs[j])
  {
    var acts := CancelIsARun(g, s, campaign);
    var s' := s.(db := s.db.(jobs := CancelAll(s.db.jobs, campaign)));
    var now, before :| s == Run(g, Init(now), before);
    RunConcat(g, Init(now), before, acts);
    assert Reachable(g, s');
    forall j | j in s.db.jobs && Recallable(s.db.jobs[j], campaign)
      ensures IsCancelled(Run(g, s', later), j) && (j in Run(g, s', later).provider.cache <==> j in s.provider.cache)
      ensures g.PerStatement? ==> j !in s.claimed && j !in s.provider.cache
    {
      assert IsCancelled(s', j);
      CancelFreezesKey(g, s', later, j);
      if g.PerStatement? {
        CancelledNeverSent(s', [], j);
      }
    }
  }
}
