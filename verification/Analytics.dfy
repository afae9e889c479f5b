/** services/api/routers/analytics.py, get_analytics: totals per campaign, per mail domain and overall.
    Rates are exact reals here; the endpoint rounds them to one decimal. */
module Analytics {
  import opened Prelude
  import opened Transitions
  import opened Models
  import opened FieldKeys
  import opened SendMachine
  import opened SendTheorems

  type Jobs = map<JobId, EmailJob>

  /** Some rows of email_jobs, each once, in any order. */
  ghost predicate Lists(ids: seq<JobId>, jobs: Jobs, wanted: EmailJob -> bool) {
    && (forall j :: j in ids <==> j in jobs && wanted(jobs[j]))
    && forall i, k :: 0 <= i < k < |ids| ==> ids[i] != ids[k]
  }

  ghost function Among(jobs: Jobs, wanted: EmailJob -> bool, p: EmailJob -> bool): set<JobId> {
    set j | j in jobs && wanted(jobs[j]) && p(jobs[j])
  }

  predicate CountsAsSent(r: EmailJob) {
    r.status == SendStatus.Sent || r.status == SendStatus.FailedPermanent
  }

  predicate IsDelivered(r: EmailJob) {
    r.delivery == Some(Delivered)
  }

  predicate IsBounced(r: EmailJob) {
    r.delivery == Some(Bounced)
  }

  predicate WasOpened(r: EmailJob) {
    r.opens > 0
  }

  predicate WasClicked(r: EmailJob) {
    r.clicks > 0
  }

  function InCampaign(c: nat): EmailJob -> bool {
    (r: EmailJob) => r.campaign == c
  }

  function InCampaigns(cs: seq<nat>): EmailJob -> bool {
    (r: EmailJob) => r.campaign in cs
  }

  function Rate(part: nat, whole: nat): real {
    if whole == 0 then 0.0 else 100.0 * part as real / whole as real
  }

  lemma RateIsPercentage(part: nat, whole: nat)
    requires part <= whole
    ensures 0.0 <= Rate(part, whole) <= 100.0
  {
  }

  // ---- one campaign ----

  datatype CampaignStats = CampaignStats(
    campaign: nat, sent: nat, delivered: nat, bounced: nat, openers: nat, clickers: nat,
    deliveryRate: real, openRate: real, clickRate: real)

  ghost function StatsOf(jobs: Jobs, c: nat): CampaignStats {
    var sent := |Among(jobs, InCampaign(c), CountsAsSent)|;
    var delivered := |Among(jobs, InCampaign(c), IsDelivered)|;
    var openers := |Among(jobs, InCampaign(c), WasOpened)|;
    var clickers := |Among(jobs, InCampaign(c), WasClicked)|;
    CampaignStats(c, sent, delivered, |Among(jobs, InCampaign(c), IsBounced)|, openers, clickers,
                  Rate(delivered, sent), Rate(openers, sent), Rate(clickers, sent))
  }

  /** sum(1 for row in rows if ...) */
  method CountRows(jobs: Jobs, ids: seq<JobId>, p: EmailJob -> bool, ghost wanted: EmailJob -> bool) returns (n: nat)
    requires Lists(ids, jobs, wanted)
    ensures n == |Among(jobs, wanted, p)|
  {
    n := 0;
    ghost var counted: set<JobId> := {};
    for i := 0 to |ids|
      invariant n == |counted|
      invariant forall j :: j in counted <==> j in ids[..i] && p(jobs[j])
    {
      assert ids[..i + 1] == ids[..i] + [ids[i]];
      if p(jobs[ids[i]]) {
        assert ids[i] !in ids[..i];
        counted := counted + {ids[i]};
        n := n + 1;
      }
    }
    assert ids[..|ids|] == ids;
    assert counted == Among(jobs, wanted, p);
  }

  method CampaignRow(jobs: Jobs, c: nat, ids: seq<JobId>) returns (stats: CampaignStats)
    requires Lists(ids, jobs, InCampaign(c))
    ensures stats == StatsOf(jobs, c)
  {
    var sent := CountRows(jobs, ids, CountsAsSent, InCampaign(c));
    var delivered := CountRows(jobs, ids, IsDelivered, InCampaign(c));
    var bounced := CountRows(jobs, ids, IsBounced, InCampaign(c));
    var openers := CountRows(jobs, ids, WasOpened, InCampaign(c));
    var clickers := CountRows(jobs, ids, WasClicked, InCampaign(c));
    stats := CampaignStats(c, sent, delivered, bounced, openers, clickers, Rate(delivered, sent), Rate(openers, sent),
        Rate(clickers, sent));
  }

  /** A percentage: nothing out of nothing is 0, and otherwise the part is that many hundredths of the whole. */
  lemma RateSpelled(part: nat, whole: nat)
    ensures whole == 0 ==> Rate(part, whole) == 0.0
    ensures whole > 0 ==> Rate(part, whole) * whole as real == 100.0 * part as real
    ensures part > 0 ==> Rate(part, part) == 100.0
  {
  }

  /** The numbers of a campaign by the columns they count, and its rates as percentages of `sent`. */
  lemma StatsSpelled(jobs: Jobs, c: nat)
    ensures var t := StatsOf(jobs, c);
            && t.campaign == c
            && t.sent == |set j | j in jobs && jobs[j].campaign == c
                                  && (jobs[j].status.Sent? || jobs[j].status.FailedPermanent?)|
            && t.delivered == |set j | j in jobs && jobs[j].campaign == c && jobs[j].delivery == Some(Delivered)|
            && t.bounced == |set j | j in jobs && jobs[j].campaign == c && jobs[j].delivery == Some(Bounced)|
            && t.openers == |set j | j in jobs && jobs[j].campaign == c && jobs[j].opens > 0|
            && t.clickers == |set j | j in jobs && jobs[j].campaign == c && jobs[j].clicks > 0|
            && t.deliveryRate == Rate(t.delivered, t.sent) && t.openRate == Rate(t.openers, t.sent)
            && t.clickRate == Rate(t.clickers, t.sent)
  {
    var wanted := InCampaign(c);
    assert Among(jobs, wanted, CountsAsSent) == set j | j in jobs && jobs[j].campaign == c
        && (jobs[j].status.Sent? || jobs[j].status.FailedPermanent?);
    assert Among(jobs, wanted, IsDelivered) ==
           set j | j in jobs && jobs[j].campaign == c && jobs[j].delivery == Some(Delivered);
    assert Among(jobs, wanted, IsBounced) ==
           set j | j in jobs && jobs[j].campaign == c && jobs[j].delivery == Some(Bounced);
    assert Among(jobs, wanted, WasOpened) == set j | j in jobs && jobs[j].campaign == c && jobs[j].opens > 0;
    assert Among(jobs, wanted, WasClicked) == set j | j in jobs && jobs[j].campaign == c && jobs[j].clicks > 0;
  }

  /** In every reachable state each of the numbers of a campaign is at most the number of messages
      sent, so its rates are percentages; delivered and bounced do not overlap. */
  lemma RatesArePercentages(g: Granularity, s: State, c: nat)
    requires Reachable(g, s)
    ensures var t := StatsOf(s.db.jobs, c);
            && t.delivered + t.bounced <= t.sent && t.openers <= t.sent && t.clickers <= t.sent
            && 0.0 <= t.deliveryRate <= 100.0 && 0.0 <= t.openRate <= 100.0 && 0.0 <= t.clickRate <= 100.0
  {
    WithinSent(g, s, InCampaign(c));
    var t := StatsOf(s.db.jobs, c);
    RateIsPercentage(t.delivered, t.sent);
    RateIsPercentage(t.openers, t.sent);
    RateIsPercentage(t.clickers, t.sent);
  }

  lemma WithinSent(g: Granularity, s: State, wanted: EmailJob -> bool)
    requires Reachable(g, s)
    ensures var jobs := s.db.jobs;
            && |Among(jobs, wanted, IsDelivered)| + |Among(jobs, wanted, IsBounced)| <=
                  |Among(jobs, wanted, CountsAsSent)|
            && |Among(jobs, wanted, WasOpened)| <= |Among(jobs, wanted, CountsAsSent)|
            && |Among(jobs, wanted, WasClicked)| <= |Among(jobs, wanted, CountsAsSent)|
  {
    AxesAgree(g, s);
    var jobs := s.db.jobs;
    var sent := Among(jobs, wanted, CountsAsSent);
    var delivered, bounced := Among(jobs, wanted, IsDelivered), Among(jobs, wanted, IsBounced);
    assert delivered * bounced == {};
    SubsetSize(delivered + bounced, sent);
    SubsetSize(Among(jobs, wanted, WasOpened), sent);
    SubsetSize(Among(jobs, wanted, WasClicked), sent);
  }

  // ---- sums over disjoint parts ----

  ghost function SumSizes(parts: seq<set<JobId>>): nat {
    if parts == [] then 0 else SumSizes(parts[..|parts| - 1]) + |parts[|parts| - 1]|
  }

  ghost function Union(parts: seq<set<JobId>>): set<JobId> {
    if parts == [] then {} else Union(parts[..|parts| - 1]) + parts[|parts| - 1]
  }

  lemma {:induction false} InUnion(parts: seq<set<JobId>>, j: JobId)
    ensures j in Union(parts) <==> exists k :: 0 <= k < |parts| && j in parts[k]
  {
    if parts != [] {
      var init := parts[..|parts| - 1];
      InUnion(init, j);
      assert forall k :: 0 <= k < |init| ==> init[k] == parts[k];
    }
  }

  lemma {:induction false} DisjointSizes(parts: seq<set<JobId>>)
    requires forall i, k :: 0 <= i < k < |parts| ==> parts[i] !! parts[k]
    ensures SumSizes(parts) == |Union(parts)|
  {
    if parts != [] {
      var init, last := parts[..|parts| - 1], parts[|parts| - 1];
      DisjointSizes(init);
      forall j | j in last ensures j !in Union(init) {
        InUnion(init, j);
      }
      assert Union(init) !! last;
    }
  }

  // ---- all campaigns ----

  datatype Totals = Totals(sent: nat, deliveryRate: real, openRate: real, clickRate: real)

  ghost function TotalsOf(jobs: Jobs, wanted: EmailJob -> bool): Totals {
    var sent := |Among(jobs, wanted, CountsAsSent)|;
    Totals(sent, Rate(|Among(jobs, wanted, IsDelivered)|, sent), Rate(|Among(jobs, wanted, WasOpened)|, sent),
           Rate(|Among(jobs, wanted, WasClicked)|, sent))
  }

  lemma OneMoreCampaign(jobs: Jobs, cs: seq<nat>, c: nat, p: EmailJob -> bool)
    requires c !in cs
    ensures |Among(jobs, InCampaigns(cs + [c]), p)| ==
        |Among(jobs, InCampaigns(cs), p)| + |Among(jobs, InCampaign(c), p)|
  {
    assert Among(jobs, InCampaigns(cs + [c]), p) == Among(jobs, InCampaigns(cs), p) + Among(jobs, InCampaign(c), p);
    assert Among(jobs, InCampaigns(cs), p) !! Among(jobs, InCampaign(c), p);
  }

  /** The loop over the campaigns; what it adds up over them is the count over all their jobs. */
  method AllCampaigns(jobs: Jobs, campaigns: seq<nat>, rows: seq<seq<JobId>>)
    returns (out: seq<CampaignStats>, totals: Totals)
    requires |rows| == |campaigns| && forall i, k :: 0 <= i < k < |campaigns| ==> campaigns[i] != campaigns[k]
    requires forall k :: 0 <= k < |campaigns| ==> Lists(rows[k], jobs, InCampaign(campaigns[k]))
    ensures |out| == |campaigns| && forall k :: 0 <= k < |out| ==> out[k] == StatsOf(jobs, campaigns[k])
    ensures totals == TotalsOf(jobs, InCampaigns(campaigns))
  {
    out := [];
    var sent, delivered, openers, clickers := 0, 0, 0, 0;
    for k := 0 to |campaigns|
      invariant |out| == k && forall i :: 0 <= i < k ==> out[i] == StatsOf(jobs, campaigns[i])
      invariant sent == |Among(jobs, InCampaigns(campaigns[..k]), CountsAsSent)|
      invariant delivered == |Among(jobs, InCampaigns(campaigns[..k]), IsDelivered)|
      invariant openers == |Among(jobs, InCampaigns(campaigns[..k]), WasOpened)|
      invariant clickers == |Among(jobs, InCampaigns(campaigns[..k]), WasClicked)|
    {
      var c := campaigns[k];
      assert campaigns[..k + 1] == campaigns[..k] + [c] && c !in campaigns[..k];
      OneMoreCampaign(jobs, campaigns[..k], c, CountsAsSent);
      OneMoreCampaign(jobs, campaigns[..k], c, IsDelivered);
      OneMoreCampaign(jobs, campaigns[..k], c, WasOpened);
      OneMoreCampaign(jobs, campaigns[..k], c, WasClicked);
      var stats := CampaignRow(jobs, c, rows[k]);
      sent, delivered := sent + stats.sent, delivered + stats.delivered;
      openers, clickers := openers + stats.openers, clickers + stats.clickers;
      out := out + [stats];
    }
    assert campaigns[..|campaigns|] == campaigns;
    totals := Totals(sent, Rate(delivered, sent), Rate(openers, sent), Rate(clickers, sent));
  }

  /** The totals by the columns they count. */
  lemma TotalsSpelled(jobs: Jobs, cs: seq<nat>)
    ensures var t := TotalsOf(jobs, InCampaigns(cs));
            var delivered := |set j | j in jobs && jobs[j].campaign in cs && jobs[j].delivery == Some(Delivered)|;
            var openers := |set j | j in jobs && jobs[j].campaign in cs && jobs[j].opens > 0|;
            var clickers := |set j | j in jobs && jobs[j].campaign in cs && jobs[j].clicks > 0|;
            && t.sent == |set j | j in jobs && jobs[j].campaign in cs
                                  && (jobs[j].status.Sent? || jobs[j].status.FailedPermanent?)|
            && t.deliveryRate == Rate(delivered, t.sent) && t.openRate == Rate(openers, t.sent)
            && t.clickRate == Rate(clickers, t.sent)
  {
    var wanted := InCampaigns(cs);
    assert Among(jobs, wanted, CountsAsSent) == set j | j in jobs && jobs[j].campaign in cs
        && (jobs[j].status.Sent? || jobs[j].status.FailedPermanent?);
    assert Among(jobs, wanted, IsDelivered) ==
           set j | j in jobs && jobs[j].campaign in cs && jobs[j].delivery == Some(Delivered);
    assert Among(jobs, wanted, WasOpened) == set j | j in jobs && jobs[j].campaign in cs && jobs[j].opens > 0;
    assert Among(jobs, wanted, WasClicked) == set j | j in jobs && jobs[j].campaign in cs && jobs[j].clicks > 0;
  }

  lemma TotalRatesArePercentages(g: Granularity, s: State, campaigns: seq<nat>)
    requires Reachable(g, s)
    ensures var t := TotalsOf(s.db.jobs, InCampaigns(campaigns));
            0.0 <= t.deliveryRate <= 100.0 && 0.0 <= t.openRate <= 100.0 && 0.0 <= t.clickRate <= 100.0
  {
    var wanted := InCampaigns(campaigns);
    WithinSent(g, s, wanted);
    var sent := |Among(s.db.jobs, wanted, CountsAsSent)|;
    RateIsPercentage(|Among(s.db.jobs, wanted, IsDelivered)|, sent);
    RateIsPercentage(|Among(s.db.jobs, wanted, WasOpened)|, sent);
    RateIsPercentage(|Among(s.db.jobs, wanted, WasClicked)|, sent);
  }

  // ---- per mail domain ----

  function AfterLastAt(addr: string): string {
    if addr == "" || addr[|addr| - 1] == '@' then "" else AfterLastAt(addr[..|addr| - 1]) + [addr[|addr| - 1]]
  }

  function DomainOf(addr: string): string {
    if '@' in addr then Lower(AfterLastAt(addr)) else "unknown"
  }

  lemma {:induction false} AfterTheLast(local: string, domain: string)
    requires '@' !in domain
    ensures AfterLastAt(local + "@" + domain) == domain
  {
    var addr := local + "@" + domain;
    if domain == "" {
      assert addr[|addr| - 1] == '@';
    } else {
      var init := domain[..|domain| - 1];
      assert addr[..|addr| - 1] == local + "@" + init;
      assert forall c :: c in init ==> c in domain;
      AfterTheLast(local, init);
      assert domain == init + [domain[|domain| - 1]] && addr[|addr| - 1] == domain[|domain| - 1];
    }
  }

  /** The domain is what follows the last at sign, in lower case; an address without one counts as unknown. */
  lemma DomainSpelled(local: string, domain: string)
    requires '@' !in domain
    ensures DomainOf(local + "@" + domain) == Lower(domain)
    ensures DomainOf(domain) == "unknown"
  {
    AfterTheLast(local, domain);
    assert (local + "@" + domain)[|local|] == '@';
  }

  datatype Bucket = Bucket(sent: nat, delivered: nat, bounced: nat)

  predicate Always(r: EmailJob) {
    true
  }

  function DomainOfJob(r: EmailJob): string {
    DomainOf(r.toAddr)
  }

  type Grouping = EmailJob -> string

  /** The rows of one domain that satisfy p. */
  ghost function Part(dom: Grouping, jobs: Jobs, rows: set<JobId>, domain: string, p: EmailJob -> bool): set<JobId> {
    set j | j in rows && j in jobs && dom(jobs[j]) == domain && p(jobs[j])
  }

  /** `sent` counts every row of the domain, whatever its send status. */
  ghost function BucketOf(dom: Grouping, jobs: Jobs, rows: set<JobId>, domain: string): Bucket {
    Bucket(|Part(dom, jobs, rows, domain, Always)|, |Part(dom, jobs, rows, domain, IsDelivered)|,
        |Part(dom, jobs, rows, domain, IsBounced)|)
  }

  /** setdefault: a domain not met yet has an empty bucket. */
  function Entry(tally: map<string, Bucket>, d: string): Bucket {
    if d in tally then tally[d] else Bucket(0, 0, 0)
  }

  /** The buckets count the rows, and there is one for every domain that has a row and for no other. */
  ghost predicate IsTally(tally: map<string, Bucket>, dom: Grouping, jobs: Jobs, rows: set<JobId>) {
    forall d :: Entry(tally, d) == BucketOf(dom, jobs, rows, d) &&
        (d in tally <==> BucketOf(dom, jobs, rows, d).sent > 0)
  }

  lemma PartStep(dom: Grouping, jobs: Jobs, rows: set<JobId>, j: JobId, d: string, p: EmailJob -> bool)
    requires j in jobs && j !in rows
    ensures |Part(dom, jobs, rows + {j}, d, p)| ==
            |Part(dom, jobs, rows, d, p)| + if dom(jobs[j]) == d && p(jobs[j]) then 1 else 0
  {
    var before, after := Part(dom, jobs, rows, d, p), Part(dom, jobs, rows + {j}, d, p);
    if dom(jobs[j]) == d && p(jobs[j]) {
      assert after == before + {j};
    } else {
      assert after == before;
    }
  }

  /** The bucket of a domain after one more row. */
  function Grown(b: Bucket, r: EmailJob): Bucket {
    Bucket(b.sent + 1,
           if IsDelivered(r) then b.delivered + 1 else b.delivered,
           if IsBounced(r) then b.bounced + 1 else b.bounced)
  }

  lemma BucketStep(dom: Grouping, jobs: Jobs, rows: set<JobId>, j: JobId, d: string)
    requires j in jobs && j !in rows
    ensures BucketOf(dom, jobs, rows + {j}, d) ==
            if dom(jobs[j]) == d then Grown(BucketOf(dom, jobs, rows, d), jobs[j]) else BucketOf(dom, jobs, rows, d)
  {
    PartStep(dom, jobs, rows, j, d, Always);
    PartStep(dom, jobs, rows, j, d, IsDelivered);
    PartStep(dom, jobs, rows, j, d, IsBounced);
  }

  lemma TallyStep(tally: map<string, Bucket>, dom: Grouping, jobs: Jobs, rows: set<JobId>, j: JobId)
    requires IsTally(tally, dom, jobs, rows) && j in jobs && j !in rows
    ensures IsTally(tally[dom(jobs[j]) := Grown(Entry(tally, dom(jobs[j])), jobs[j])], dom, jobs, rows + {j})
  {
    var more := tally[dom(jobs[j]) := Grown(Entry(tally, dom(jobs[j])), jobs[j])];
    forall d
      ensures Entry(more, d) == BucketOf(dom, jobs, rows + {j}, d) &&
          (d in more <==> BucketOf(dom, jobs, rows + {j}, d).sent > 0)
    {
      assert Entry(tally, d) == BucketOf(dom, jobs, rows, d) && (d in tally <==> BucketOf(dom, jobs, rows, d).sent > 0);
      BucketStep(dom, jobs, rows, j, d);
    }
  }

  lemma TallyCovers(tally: map<string, Bucket>, dom: Grouping, jobs: Jobs, rows: set<JobId>, j: JobId)
    requires IsTally(tally, dom, jobs, rows) && j in jobs && j in rows
    ensures dom(jobs[j]) in tally
  {
    assert j in Part(dom, jobs, rows, dom(jobs[j]), Always);
    assert BucketOf(dom, jobs, rows, dom(jobs[j])).sent > 0;
  }

  lemma EmptyTally(dom: Grouping, jobs: Jobs)
    ensures IsTally(map[], dom, jobs, {})
  {
    forall d ensures BucketOf(dom, jobs, {}, d) == Bucket(0, 0, 0) {
      assert Part(dom, jobs, {}, d, Always) == {} && Part(dom, jobs, {}, d, IsDelivered) == {} &&
          Part(dom, jobs, {}, d, IsBounced) == {};
    }
  }

  /** One turn of the bucket loop. */
  method AddRow(tally: map<string, Bucket>, r: EmailJob) returns (more: map<string, Bucket>)
    ensures more == tally[DomainOfJob(r) := Grown(Entry(tally, DomainOfJob(r)), r)]
  {
    var domain := DomainOfJob(r);
    var bucket := if domain in tally then tally[domain] else Bucket(0, 0, 0);
    bucket := bucket.(sent := bucket.sent + 1);
    if r.delivery == Some(Delivered) {
      bucket := bucket.(delivered := bucket.delivered + 1);
    } else if r.delivery == Some(Bounced) {
      bucket := bucket.(bounced := bucket.bounced + 1);
    }
    more := tally[domain := bucket];
  }

  /** The loop that fills the buckets. */
  method DomainTotals(jobs: Jobs, ids: seq<JobId>) returns (tally: map<string, Bucket>)
    requires (forall j :: j in ids ==> j in jobs) && forall i, k :: 0 <= i < k < |ids| ==> ids[i] != ids[k]
    ensures IsTally(tally, DomainOfJob, jobs, Elements(ids))
  {
    tally := map[];
    EmptyTally(DomainOfJob, jobs);
    for i := 0 to |ids|
      invariant IsTally(tally, DomainOfJob, jobs, Elements(ids[..i]))
    {
      var r := jobs[ids[i]];
      assert ids[..i + 1] == ids[..i] + [ids[i]] && ids[i] !in ids[..i];
      assert Elements(ids[..i + 1]) == Elements(ids[..i]) + {ids[i]};
      TallyStep(tally, DomainOfJob, jobs, Elements(ids[..i]), ids[i]);
      tally := AddRow(tally, r);
    }
    assert ids[..|ids|] == ids;
  }

  /** A bucket by the columns it counts: there is one for each domain that occurs. */
  lemma TallySpelled(tally: map<string, Bucket>, dom: Grouping, jobs: Jobs, rows: set<JobId>, d: string)
    requires IsTally(tally, dom, jobs, rows)
    ensures d in tally <==> exists j :: j in rows && j in jobs && dom(jobs[j]) == d
    ensures d in tally ==>
              && tally[d].sent == |set j | j in rows && j in jobs && dom(jobs[j]) == d|
              && tally[d].delivered ==
                   |set j | j in rows && j in jobs && dom(jobs[j]) == d && jobs[j].delivery == Some(Delivered)|
              && tally[d].bounced ==
                   |set j | j in rows && j in jobs && dom(jobs[j]) == d && jobs[j].delivery == Some(Bounced)|
  {
    assert Entry(tally, d) == BucketOf(dom, jobs, rows, d) && (d in tally <==> BucketOf(dom, jobs, rows, d).sent > 0);
    var all := Part(dom, jobs, rows, d, Always);
    assert all == set j | j in rows && j in jobs && dom(jobs[j]) == d;
    if |all| > 0 {
      var j :| j in all;
    }
    if j :| j in rows && j in jobs && dom(jobs[j]) == d {
      assert j in all && all != {};
    }
    assert Part(dom, jobs, rows, d, IsDelivered) ==
           set j | j in rows && j in jobs && dom(jobs[j]) == d && jobs[j].delivery == Some(Delivered);
    assert Part(dom, jobs, rows, d, IsBounced) ==
           set j | j in rows && j in jobs && dom(jobs[j]) == d && jobs[j].delivery == Some(Bounced);
  }

  datatype DomainStats = DomainStats(domain: string, bucket: Bucket, bounceRate: real)

  ghost function Domains(out: seq<DomainStats>): set<string> {
    set k | 0 <= k < |out| :: out[k].domain
  }

  predicate IsEntry(e: DomainStats, tally: map<string, Bucket>) {
    e.domain in tally && e.bucket == tally[e.domain] && e.bounceRate == Rate(e.bucket.bounced, e.bucket.sent)
  }

  /** One entry per bucket, the largest first; equal ones in some order. */
  ghost predicate IsRanking(out: seq<DomainStats>, tally: map<string, Bucket>, domains: set<string>) {
    && Domains(out) == domains
    && (forall k :: 0 <= k < |out| ==> IsEntry(out[k], tally))
    && (forall i, k :: 0 <= i < k < |out| ==>
          out[i].domain != out[k].domain && out[i].bucket.sent >= out[k].bucket.sent)
  }

  lemma RankStep(out: seq<DomainStats>, e: DomainStats, tally: map<string, Bucket>, domains: set<string>)
    requires IsRanking(out, tally, domains) && IsEntry(e, tally) && e.domain !in domains
    requires forall k :: 0 <= k < |out| ==> out[k].bucket.sent >= e.bucket.sent
    ensures IsRanking(out + [e], tally, domains + {e.domain})
  {
    var more := out + [e];
    assert more[|out|] == e && forall k :: 0 <= k < |out| ==> more[k] == out[k];
    assert forall k :: 0 <= k < |out| ==> out[k].domain in Domains(out);
    assert Domains(more) == Domains(out) + {e.domain};
  }

  /** sorted(..., key=-sent) */
  method RankDomains(tally: map<string, Bucket>) returns (out: seq<DomainStats>)
    ensures IsRanking(out, tally, tally.Keys)
  {
    out := [];
    var rest := tally.Keys;
    while rest != {}
      invariant rest <= tally.Keys
      invariant IsRanking(out, tally, tally.Keys - rest)
      invariant forall k, d :: 0 <= k < |out| && d in rest ==> out[k].bucket.sent >= tally[d].sent
    {
      var d := Largest(tally, rest);
      var entry := DomainStats(d, tally[d], Rate(tally[d].bounced, tally[d].sent));
      RankStep(out, entry, tally, tally.Keys - rest);
      assert tally.Keys - rest + {d} == tally.Keys - (rest - {d});
      out := out + [entry];
      rest := rest - {d};
    }
    assert tally.Keys - rest == tally.Keys;
  }

  method Largest(tally: map<string, Bucket>, among: set<string>) returns (d: string)
    requires among != {} && among <= tally.Keys
    ensures d in among && forall e :: e in among ==> tally[d].sent >= tally[e].sent
  {
    d :| d in among;
    var rest := among - {d};
    while rest != {}
      invariant rest <= among && d in among
      invariant forall e :: e in among - rest ==> tally[d].sent >= tally[e].sent
    {
      var e :| e in rest;
      if tally[e].sent > tally[d].sent {
        d := e;
      }
      rest := rest - {e};
    }
  }

  function SumOf(out: seq<DomainStats>, f: DomainStats -> nat): nat {
    if out == [] then 0 else SumOf(out[..|out| - 1], f) + f(out[|out| - 1])
  }

  lemma {:induction false} SumOfSizes(out: seq<DomainStats>, f: DomainStats -> nat, parts: seq<set<JobId>>)
    requires |parts| == |out| && forall k :: 0 <= k < |out| ==> f(out[k]) == |parts[k]|
    ensures SumOf(out, f) == SumSizes(parts)
  {
    if out != [] {
      SumOfSizes(out[..|out| - 1], f, parts[..|out| - 1]);
    }
  }

  ghost function Parts(out: seq<DomainStats>, dom: Grouping, jobs: Jobs, rows: set<JobId>,
        p: EmailJob -> bool): seq<set<JobId>> {
    seq(|out|, k requires 0 <= k < |out| => Part(dom, jobs, rows, out[k].domain, p))
  }

  lemma PartsDisjoint(out: seq<DomainStats>, dom: Grouping, jobs: Jobs, rows: set<JobId>, p: EmailJob -> bool)
    requires forall i, k :: 0 <= i < k < |out| ==> out[i].domain != out[k].domain
    ensures SumSizes(Parts(out, dom, jobs, rows, p)) == |Union(Parts(out, dom, jobs, rows, p))|
  {
    var parts := Parts(out, dom, jobs, rows, p);
    forall i, k | 0 <= i < k < |parts| ensures parts[i] !! parts[k] {
      assert out[i].domain != out[k].domain;
    }
    DisjointSizes(parts);
  }

  ghost function Those(jobs: Jobs, rows: set<JobId>, p: EmailJob -> bool): set<JobId> {
    set j | j in rows && j in jobs && p(jobs[j])
  }

  lemma PartsCover(out: seq<DomainStats>, dom: Grouping, jobs: Jobs, rows: set<JobId>, p: EmailJob -> bool, j: JobId)
    requires j in rows && j in jobs ==> dom(jobs[j]) in Domains(out)
    ensures j in Union(Parts(out, dom, jobs, rows, p)) <==> j in Those(jobs, rows, p)
  {
    var parts := Parts(out, dom, jobs, rows, p);
    InUnion(parts, j);
    if j in Those(jobs, rows, p) {
      var k :| 0 <= k < |out| && out[k].domain == dom(jobs[j]);
      assert j in parts[k];
    }
  }

  /** A column of the ranking sums to the number of rows it counts. */
  lemma ColumnAddsUp(out: seq<DomainStats>, dom: Grouping, jobs: Jobs, rows: set<JobId>, p: EmailJob -> bool,
        f: DomainStats -> nat)
    requires forall i, k :: 0 <= i < k < |out| ==> out[i].domain != out[k].domain
    requires forall j :: j in rows && j in jobs ==> dom(jobs[j]) in Domains(out)
    requires forall k :: 0 <= k < |out| ==> f(out[k]) == |Part(dom, jobs, rows, out[k].domain, p)|
    ensures SumOf(out, f) == |Those(jobs, rows, p)|
  {
    PartsDisjoint(out, dom, jobs, rows, p);
    SumOfSizes(out, f, Parts(out, dom, jobs, rows, p));
    forall j ensures j in Union(Parts(out, dom, jobs, rows, p)) <==> j in Those(jobs, rows, p) {
      PartsCover(out, dom, jobs, rows, p, j);
    }
    assert Union(Parts(out, dom, jobs, rows, p)) == Those(jobs, rows, p);
  }

  /** Domains partition the rows: over all domains the bucket totals are the number of rows, of
      delivered rows and of bounced rows, and every bounce rate is a percentage. */
  lemma DomainsAddUp(out: seq<DomainStats>, tally: map<string, Bucket>, dom: Grouping, jobs: Jobs, rows: set<JobId>)
    requires IsRanking(out, tally, tally.Keys) && IsTally(tally, dom, jobs, rows) && rows <= jobs.Keys
    ensures SumOf(out, (d: DomainStats) => d.bucket.sent) == |rows|
    ensures SumOf(out, (d: DomainStats) => d.bucket.delivered) == |Those(jobs, rows, IsDelivered)|
    ensures SumOf(out, (d: DomainStats) => d.bucket.bounced) == |Those(jobs, rows, IsBounced)|
    ensures forall k :: 0 <= k < |out| ==>
              out[k].bucket.delivered + out[k].bucket.bounced <= out[k].bucket.sent && 0.0 <= out[k].bounceRate <= 100.0
  {
    forall k | 0 <= k < |out| ensures out[k].bucket == BucketOf(dom, jobs, rows, out[k].domain) {
      assert IsEntry(out[k], tally) && Entry(tally, out[k].domain) == tally[out[k].domain];
    }
    forall j | j in rows && j in jobs ensures dom(jobs[j]) in Domains(out) {
      TallyCovers(tally, dom, jobs, rows, j);
    }
    ColumnAddsUp(out, dom, jobs, rows, Always, (d: DomainStats) => d.bucket.sent);
    ColumnAddsUp(out, dom, jobs, rows, IsDelivered, (d: DomainStats) => d.bucket.delivered);
    ColumnAddsUp(out, dom, jobs, rows, IsBounced, (d: DomainStats) => d.bucket.bounced);
    assert Those(jobs, rows, Always) == rows;
    forall k | 0 <= k < |out|
      ensures out[k].bucket.delivered + out[k].bucket.bounced <= out[k].bucket.sent && 0.0 <= out[k].bounceRate <= 100.0
    {
      BucketFits(dom, jobs, rows, out[k].domain);
      assert IsEntry(out[k], tally);
      RateIsPercentage(out[k].bucket.bounced, out[k].bucket.sent);
    }
  }

  lemma BucketFits(dom: Grouping, jobs: Jobs, rows: set<JobId>, d: string)
    ensures var b := BucketOf(dom, jobs, rows, d); b.delivered + b.bounced <= b.sent
  {
    var delivered, bounced := Part(dom, jobs, rows, d, IsDelivered), Part(dom, jobs, rows, d, IsBounced);
    assert delivered * bounced == {};
    SubsetSize(delivered + bounced, Part(dom, jobs, rows, d, Always));
  }

  /** The two halves of the report agree on what was delivered and bounced: the domain buckets of an
      organisation's rows add up to the messages of its campaigns. On what was sent they agree if and only
      if every row counts as sent, because a bucket also counts rows that never were; it is never less. */
  lemma DomainsMatchCampaigns(out: seq<DomainStats>, tally: map<string, Bucket>, dom: Grouping, jobs: Jobs,
        ids: seq<JobId>, campaigns: seq<nat>)
    requires Lists(ids, jobs, InCampaigns(campaigns))
    requires IsRanking(out, tally, tally.Keys) && IsTally(tally, dom, jobs, Elements(ids))
    ensures SumOf(out, (d: DomainStats) => d.bucket.delivered) == |Among(jobs, InCampaigns(campaigns), IsDelivered)|
    ensures SumOf(out, (d: DomainStats) => d.bucket.bounced) == |Among(jobs, InCampaigns(campaigns), IsBounced)|
    ensures SumOf(out, (d: DomainStats) => d.bucket.sent) >= TotalsOf(jobs, InCampaigns(campaigns)).sent
    ensures SumOf(out, (d: DomainStats) => d.bucket.sent) == TotalsOf(jobs, InCampaigns(campaigns)).sent <==>
            forall j :: j in Elements(ids) ==> CountsAsSent(jobs[j])
  {
    var rows := Elements(ids);
    DomainsAddUp(out, tally, dom, jobs, rows);
    assert Those(jobs, rows, IsDelivered) == Among(jobs, InCampaigns(campaigns), IsDelivered);
    assert Those(jobs, rows, IsBounced) == Among(jobs, InCampaigns(campaigns), IsBounced);
    FullOrSmaller(Among(jobs, InCampaigns(campaigns), CountsAsSent), rows);
  }

  lemma FullOrSmaller(part: set<JobId>, whole: set<JobId>)
    requires part <= whole
    ensures |part| <= |whole| && (|part| == |whole| <==> part == whole)
  {
    SubsetSize(part, whole);
    if part != whole {
      assert whole == part + (whole - part);
    }
  }

  /** One campaign with one job that is still queued. */
  function OneQueued(): Jobs {
    map[7 := QueuedJob()]
  }

  function OneBucket(domain: string): seq<DomainStats> {
    [DomainStats(domain, Bucket(1, 0, 0), 0.0)]
  }

  /** Its report has one message sent in the domain half and none in the campaign half. */
  lemma QueuedCountsAsSent(dom: Grouping)
    ensures var domain := dom(OneQueued()[7]);
            && IsTally(map[domain := Bucket(1, 0, 0)], dom, OneQueued(), Elements([7]))
            && IsRanking(OneBucket(domain), map[domain := Bucket(1, 0, 0)], {domain})
            && Lists([7], OneQueued(), InCampaigns([1]))
            && SumOf(OneBucket(domain), (d: DomainStats) => d.bucket.sent) == 1
            && TotalsOf(OneQueued(), InCampaigns([1])).sent == 0
  {
    var jobs, rows, domain := OneQueued(), Elements([7]), dom(OneQueued()[7]);
    var out, tally := OneBucket(domain), map[domain := Bucket(1, 0, 0)];
    forall d ensures Entry(tally, d) == BucketOf(dom, jobs, rows, d) {
      assert Part(dom, jobs, rows, d, Always) == if d == domain then {7} else {};
      assert Part(dom, jobs, rows, d, IsDelivered) == {} == Part(dom, jobs, rows, d, IsBounced);
    }
    assert Domains(out) == {domain} by { assert out[0].domain == domain; }
    assert SumOf(out[..0], (d: DomainStats) => d.bucket.sent) == 0;
    assert Among(jobs, InCampaigns([1]), CountsAsSent) == {};
  }
}
