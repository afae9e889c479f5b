/** services/api/routers/campaigns.py, get_progress: the dashboard's numbers, as sums over the grouped
    counts of a campaign's jobs. */
module Progress {
  import opened Prelude
  import opened Transitions
  import opened Models
  import opened SendMachine
  import opened SendTheorems

  type Jobs = map<JobId, EmailJob>

  datatype Key = Key(send: SendStatus, delivery: Option<DeliveryStatus>)

  function KeyOf(r: EmailJob): Key {
    Key(r.status, r.delivery)
  }

  /** The jobs of a campaign whose group satisfies p. */
  ghost function Where(jobs: Jobs, campaign: nat, p: Key -> bool): set<JobId> {
    set j | j in jobs && jobs[j].campaign == campaign && p(KeyOf(jobs[j]))
  }

  function Is(k: Key): Key -> bool {
    x => x == k
  }

  function Any(): Key -> bool {
    x => true
  }

  function InStatus(these: set<SendStatus>): Key -> bool {
    (k: Key) => k.send in these
  }

  function InDelivery(these: set<DeliveryStatus>): Key -> bool {
    (k: Key) => k.delivery.Some? && k.delivery.value in these
  }

  /** The dictionary made of the rows of the GROUP BY query. */
  ghost predicate IsGrouping(counts: map<Key, nat>, jobs: Jobs, campaign: nat) {
    && (forall k :: k in counts ==> counts[k] == |Where(jobs, campaign, Is(k))|)
    && (forall j :: j in jobs && jobs[j].campaign == campaign ==> KeyOf(jobs[j]) in counts)
  }

  method GroupRows(jobs: Jobs, campaign: nat) returns (counts: map<Key, nat>)
    ensures IsGrouping(counts, jobs, campaign)
  {
    var keys := set j | j in jobs && jobs[j].campaign == campaign :: KeyOf(jobs[j]);
    counts := map k | k in keys :: |set j | j in jobs && jobs[j].campaign == campaign && KeyOf(jobs[j]) == k|;
    forall k | k in counts ensures counts[k] == |Where(jobs, campaign, Is(k))| {
      assert (set j | j in jobs && jobs[j].campaign == campaign && KeyOf(jobs[j]) == k) == Where(jobs, campaign, Is(k));
    }
  }

  /** Where(p) restricted to groups already summed. */
  ghost function Summed(jobs: Jobs, campaign: nat, p: Key -> bool, keys: set<Key>): set<JobId> {
    set j | j in Where(jobs, campaign, p) && KeyOf(jobs[j]) in keys
  }

  lemma OneMoreGroup(jobs: Jobs, campaign: nat, p: Key -> bool, keys: set<Key>, k: Key)
    requires k !in keys
    ensures |Summed(jobs, campaign, p, keys + {k})| ==
            |Summed(jobs, campaign, p, keys)| + if p(k) then |Where(jobs, campaign, Is(k))| else 0
  {
    var before, after, group := Summed(jobs, campaign, p, keys), Summed(jobs, campaign, p, keys + {k}),
        Where(jobs, campaign, Is(k));
    if p(k) {
      assert after == before + group && before * group == {};
    } else {
      assert after == before;
    }
  }

  /** sum(n for (s, d), n in counts.items() if ...): the number of jobs that satisfy the condition. */
  method SumWhere(counts: map<Key, nat>, p: Key -> bool, ghost jobs: Jobs, ghost campaign: nat) returns (total: nat)
    requires IsGrouping(counts, jobs, campaign)
    ensures total == |Where(jobs, campaign, p)|
  {
    total := 0;
    var rest := counts.Keys;
    while rest != {}
      invariant rest <= counts.Keys
      invariant total == |Summed(jobs, campaign, p, counts.Keys - rest)|
    {
      var k :| k in rest;
      OneMoreGroup(jobs, campaign, p, counts.Keys - rest, k);
      assert counts.Keys - rest + {k} == counts.Keys - (rest - {k});
      if p(k) {
        total := total + counts[k];
      }
      rest := rest - {k};
    }
    assert Summed(jobs, campaign, p, counts.Keys - {}) == Where(jobs, campaign, p);
  }

  datatype ProgressOut = ProgressOut(
    total: nat, delivered: nat, sending: nat, retrying: nat, failedPermanent: nat, bounced: nat, complained: nat,
        attempted: nat)

  const ATTEMPTED: set<SendStatus> :=
    {SendStatus.Sent, SendStatus.FailedPermanent, SendStatus.Cancelled, SendStatus.Skipped}

  ghost function ProgressOf(jobs: Jobs, campaign: nat): ProgressOut {
    ProgressOut(
      |Where(jobs, campaign, Any())|,
      |Where(jobs, campaign, InDelivery({Delivered}))|,
      |Where(jobs, campaign, InStatus({SendStatus.Sending}))|,
      |Where(jobs, campaign, InStatus({SendStatus.FailedTransient}))|,
      |Where(jobs, campaign, InStatus({SendStatus.FailedPermanent}))|,
      |Where(jobs, campaign, InDelivery({Bounced}))|,
      |Where(jobs, campaign, InDelivery({Complained}))|,
      |Where(jobs, campaign, InStatus(ATTEMPTED))|)
  }

  /** The endpoint reports counts of jobs, though it only ever sees the groups. */
  method GetProgress(jobs: Jobs, campaign: nat) returns (p: ProgressOut)
    ensures p == ProgressOf(jobs, campaign)
  {
    var counts := GroupRows(jobs, campaign);
    var total := SumWhere(counts, Any(), jobs, campaign);
    var delivered := SumWhere(counts, InDelivery({Delivered}), jobs, campaign);
    var bounced := SumWhere(counts, InDelivery({Bounced}), jobs, campaign);
    var complained := SumWhere(counts, InDelivery({Complained}), jobs, campaign);
    var sending := SumWhere(counts, InStatus({SendStatus.Sending}), jobs, campaign);
    var retrying := SumWhere(counts, InStatus({SendStatus.FailedTransient}), jobs, campaign);
    var failedPermanent := SumWhere(counts, InStatus({SendStatus.FailedPermanent}), jobs, campaign);
    var attempted := SumWhere(counts, InStatus(ATTEMPTED), jobs, campaign);
    p := ProgressOut(total, delivered, sending, retrying, failedPermanent, bounced, complained, attempted);
  }

  /** The progress bar by the columns it counts. */
  lemma ProgressSpelled(jobs: Jobs, c: nat)
    ensures var p := ProgressOf(jobs, c);
            && p.total == |set j | j in jobs && jobs[j].campaign == c|
            && p.delivered == |set j | j in jobs && jobs[j].campaign == c && jobs[j].delivery == Some(Delivered)|
            && p.bounced == |set j | j in jobs && jobs[j].campaign == c && jobs[j].delivery == Some(Bounced)|
            && p.complained == |set j | j in jobs && jobs[j].campaign == c && jobs[j].delivery == Some(Complained)|
            && p.sending == |set j | j in jobs && jobs[j].campaign == c && jobs[j].status.Sending?|
            && p.retrying == |set j | j in jobs && jobs[j].campaign == c && jobs[j].status.FailedTransient?|
            && p.failedPermanent == |set j | j in jobs && jobs[j].campaign == c && jobs[j].status.FailedPermanent?|
            && p.attempted == |set j | j in jobs && jobs[j].campaign == c
                                       && (jobs[j].status.Sent? || jobs[j].status.FailedPermanent?
                                           || jobs[j].status.Cancelled? || jobs[j].status.Skipped?)|
  {
    assert Where(jobs, c, Any()) == set j | j in jobs && jobs[j].campaign == c;
    DeliverySpelled(jobs, c, Delivered);
    DeliverySpelled(jobs, c, Bounced);
    DeliverySpelled(jobs, c, Complained);
    assert Where(jobs, c, InStatus({SendStatus.Sending})) ==
           set j | j in jobs && jobs[j].campaign == c && jobs[j].status.Sending?;
    assert Where(jobs, c, InStatus({SendStatus.FailedTransient})) ==
           set j | j in jobs && jobs[j].campaign == c && jobs[j].status.FailedTransient?;
    assert Where(jobs, c, InStatus({SendStatus.FailedPermanent})) ==
           set j | j in jobs && jobs[j].campaign == c && jobs[j].status.FailedPermanent?;
    assert Where(jobs, c, InStatus(ATTEMPTED)) == set j | j in jobs && jobs[j].campaign == c
        && (jobs[j].status.Sent? || jobs[j].status.FailedPermanent?
            || jobs[j].status.Cancelled? || jobs[j].status.Skipped?);
  }

  lemma DeliverySpelled(jobs: Jobs, c: nat, s: DeliveryStatus)
    ensures Where(jobs, c, InDelivery({s})) == set j | j in jobs && jobs[j].campaign == c && jobs[j].delivery == Some(s)
  {
  }

  lemma SplitStatus(jobs: Jobs, campaign: nat, a: set<SendStatus>, b: set<SendStatus>)
    requires a * b == {}
    ensures |Where(jobs, campaign, InStatus(a + b))| ==
        |Where(jobs, campaign, InStatus(a))| + |Where(jobs, campaign, InStatus(b))|
  {
    var wa, wb := Where(jobs, campaign, InStatus(a)), Where(jobs, campaign, InStatus(b));
    assert Where(jobs, campaign, InStatus(a + b)) == wa + wb;
    assert forall x :: x in a ==> x !in b by {
      assert forall x :: x in a && x in b ==> x in a * b;
    }
    assert wa * wb == {};
  }

  lemma SplitDelivery(jobs: Jobs, campaign: nat, a: set<DeliveryStatus>, b: set<DeliveryStatus>)
    requires a * b == {}
    ensures |Where(jobs, campaign, InDelivery(a + b))| ==
        |Where(jobs, campaign, InDelivery(a))| + |Where(jobs, campaign, InDelivery(b))|
  {
    var wa, wb := Where(jobs, campaign, InDelivery(a)), Where(jobs, campaign, InDelivery(b));
    assert Where(jobs, campaign, InDelivery(a + b)) == wa + wb;
    assert forall x :: x in a ==> x !in b by {
      assert forall x :: x in a && x in b ==> x in a * b;
    }
    assert wa * wb == {};
  }

  /** Every job is in exactly one of the four columns of the progress bar. */
  lemma ColumnsAddUp(jobs: Jobs, campaign: nat)
    ensures var p := ProgressOf(jobs, campaign);
            && p.attempted + p.sending + p.retrying + |Where(jobs, campaign, InStatus({SendStatus.Queued}))| == p.total
            && p.failedPermanent <= p.attempted
  {
    var sending, retrying, queued := {SendStatus.Sending}, {SendStatus.FailedTransient}, {SendStatus.Queued};
    SplitStatus(jobs, campaign, ATTEMPTED, sending);
    SplitStatus(jobs, campaign, ATTEMPTED + sending, retrying);
    SplitStatus(jobs, campaign, ATTEMPTED + sending + retrying, queued);
    var all := ATTEMPTED + sending + retrying + queued;
    assert Where(jobs, campaign, InStatus(all)) == Where(jobs, campaign, Any()) by {
      forall st: SendStatus ensures st in all {
        match st
        case Queued => case Sending => case Sent => case FailedTransient =>
        case FailedPermanent => case Cancelled => case Skipped =>
      }
    }
    SplitStatus(jobs, campaign, {SendStatus.FailedPermanent}, ATTEMPTED - {SendStatus.FailedPermanent});
    assert {SendStatus.FailedPermanent} + (ATTEMPTED - {SendStatus.FailedPermanent}) == ATTEMPTED;
  }

  const REPORTED: set<DeliveryStatus> := {Delivered, Bounced, Complained}

  lemma ReportedAddUp(jobs: Jobs, campaign: nat)
    ensures var p := ProgressOf(jobs, campaign);
            p.delivered + p.bounced + p.complained == |Where(jobs, campaign, InDelivery(REPORTED))|
  {
    SplitDelivery(jobs, campaign, {Delivered}, {Bounced});
    SplitDelivery(jobs, campaign, {Delivered} + {Bounced}, {Complained});
    assert {Delivered} + {Bounced} + {Complained} == REPORTED;
  }

  /** In every reachable state the three delivery columns together fit into the attempted one. */
  lemma ReportedWithinAttempted(g: Granularity, s: State, campaign: nat)
    requires Reachable(g, s)
    ensures var p := ProgressOf(s.db.jobs, campaign); p.delivered + p.bounced + p.complained <= p.attempted
  {
    AxesAgree(g, s);
    ReportedAddUp(s.db.jobs, campaign);
    SubsetSize(Where(s.db.jobs, campaign, InDelivery(REPORTED)), Where(s.db.jobs, campaign, InStatus(ATTEMPTED)));
  }

  lemma StatusCountGrows(a: Jobs, b: Jobs, campaign: nat, these: set<SendStatus>)
    requires forall j :: j in a ==> j in b && Grows(a[j], b[j])
    requires these <= SEND_TERMINAL
    ensures |Where(a, campaign, InStatus(these))| <= |Where(b, campaign, InStatus(these))|
  {
    forall j | j in Where(a, campaign, InStatus(these)) ensures j in Where(b, campaign, InStatus(these)) {
      assert Grows(a[j], b[j]) && a[j].status in SEND_TERMINAL;
    }
    SubsetSize(Where(a, campaign, InStatus(these)), Where(b, campaign, InStatus(these)));
  }

  lemma SettledDeliveriesGrow(a: Jobs, b: Jobs, campaign: nat)
    requires forall j :: j in a ==> j in b && Grows(a[j], b[j])
    ensures |Where(a, campaign, InDelivery(REPORTED))| <= |Where(b, campaign, InDelivery(REPORTED))|
    ensures |Where(a, campaign, InDelivery({Complained}))| <= |Where(b, campaign, InDelivery({Complained}))|
    ensures |Where(a, campaign, Any())| <= |Where(b, campaign, Any())|
  {
    forall j | j in a && a[j].delivery.Some? && a[j].delivery.value in REPORTED
      ensures b[j].delivery.Some? && b[j].delivery.value in REPORTED
    {
      assert Grows(a[j], b[j]);
    }
    SubsetSize(Where(a, campaign, InDelivery(REPORTED)), Where(b, campaign, InDelivery(REPORTED)));
    forall j | j in a ensures a[j].delivery == Some(Complained) ==> b[j].delivery == Some(Complained) {
      assert Grows(a[j], b[j]);
    }
    SubsetSize(Where(a, campaign, InDelivery({Complained})), Where(b, campaign, InDelivery({Complained})));
    SubsetSize(Where(a, campaign, Any()), Where(b, campaign, Any()));
  }

  /** Along every run the attempted column, the total and the number of settled deliveries never go
      down. The delivered column alone may: a complaint takes a job out of it. */
  lemma ProgressIsMonotone(g: Granularity, s: State, acts: seq<Action>, campaign: nat)
    ensures var p, q := ProgressOf(s.db.jobs, campaign), ProgressOf(Run(g, s, acts).db.jobs, campaign);
            && p.attempted <= q.attempted && p.total <= q.total && p.failedPermanent <= q.failedPermanent
            && p.complained <= q.complained
            && p.delivered + p.bounced + p.complained <= q.delivered + q.bounced + q.complained
  {
    RunGrows(g, s, acts);
    var a, b := s.db.jobs, Run(g, s, acts).db.jobs;
    assert forall j :: j in a ==> j in b && Grows(a[j], b[j]);
    StatusCountGrows(a, b, campaign, ATTEMPTED);
    StatusCountGrows(a, b, campaign, {SendStatus.FailedPermanent});
    SettledDeliveriesGrow(a, b, campaign);
    ReportedAddUp(a, campaign);
    ReportedAddUp(b, campaign);
  }
}
