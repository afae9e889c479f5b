/** services/api/webhooks: ingestion with deduplication, the processor, and the sweeper. */
module Webhooks {
  import opened Prelude
  import opened Transitions
  import opened Models
  import opened JobStore

  /** How long the sweeper keeps retrying an orphan: 24 hours, in seconds. */
  const ORPHAN_GIVE_UP_AFTER := 86400.0

  // ---- the processor ----

  ghost predicate HasMid(jobs: map<JobId, EmailJob>, j: JobId, m: MessageId) {
    j in jobs && jobs[j].mid == Some(m)
  }

  ghost function FindJob(jobs: map<JobId, EmailJob>, m: MessageId): (r: Option<JobId>)
    ensures r.None? <==> forall j :: !HasMid(jobs, j, m)
    ensures r.Some? ==> HasMid(jobs, r.value, m)
  {
    if exists j :: HasMid(jobs, j, m) then
      var j :| HasMid(jobs, j, m);
      Some(j)
    else None
  }

  /** The delivery status an event kind asserts; `sent`, engagement and unknown kinds assert none. */
  function Asserts(k: EventKind): Option<DeliveryStatus> {
    match k
    case EvDelivered => Some(DeliveryStatus.Delivered)
    case EvDeferred => Some(DeliveryStatus.Deferred)
    case EvBounced => Some(DeliveryStatus.Bounced)
    case EvComplained => Some(DeliveryStatus.Complained)
    case _ => None
  }

  predicate IsEngagement(k: EventKind) {
    k.Opened? || k.Clicked?
  }

  /** The job row after one event of this kind has been applied to it. */
  function ApplyToJob(r: EmailJob, k: EventKind, at: real): EmailJob {
    match k
    case Opened => r.(opens := r.opens + 1, firstOpened := if r.firstOpened.None? then Some(at) else r.firstOpened)
    case Clicked =>
      r.(clicks := r.clicks + 1, firstClicked := if r.firstClicked.None? then Some(at) else r.firstClicked)
    case _ =>
      if Asserts(k).Some? && Outranks(Asserts(k).value, r.delivery) then r.(delivery := Asserts(k)) else r
  }

  /** process_one_event as one atomic step: the new tables, and whether the event is settled. */
  ghost function ProcessEvent(d: Db, e: EventId, now: real): (r: (Db, bool))
    ensures r.0.jobs.Keys == d.jobs.Keys && r.0.events.Keys == d.events.Keys
  {
    if e !in d.events then (d, false)
    else
      var row := d.events[e];
      if row.processedAt.Some? then (d, true)
      else
        match FindJob(d.jobs, row.mid)
        case None => (d.(events := d.events[e := row.(attempts := row.attempts + 1)]), false)
        case Some(j) =>
          (Db(d.jobs[j := ApplyToJob(d.jobs[j], row.kind, row.occurredAt)],
              d.events[e := row.(job := Some(j), processedAt := Some(now))],
              if IsEngagement(row.kind) then d.engagements + [Engagement(j, row.kind, row.occurredAt)]
                  else d.engagements,
              d.applied[e := j]),
           true)
  }

  /** What one event of each kind leaves in the columns of a job, and that it leaves the others alone. */
  lemma KindsByName(r: EmailJob, k: EventKind, at: real)
    ensures var r', s := ApplyToJob(r, k, at), r.delivery;
            match k
            case EvDeferred => r' == r.(delivery := if s.None? then Some(Deferred) else s)
            case EvDelivered => r' == r.(delivery := if s.None? || s == Some(Deferred) then Some(Delivered) else s)
            case EvBounced => r' == r.(delivery := if s == Some(Complained) then s else Some(Bounced))
            case EvComplained => r' == r.(delivery := Some(Complained))
            case Opened =>
              r' == r.(opens := r.opens + 1, firstOpened := r'.firstOpened)
              && (r.firstOpened.Some? ==> r'.firstOpened == r.firstOpened)
              && (r.firstOpened.None? ==> r'.firstOpened == Some(at))
            case Clicked =>
              r' == r.(clicks := r.clicks + 1, firstClicked := r'.firstClicked)
              && (r.firstClicked.Some? ==> r'.firstClicked == r.firstClicked)
              && (r.firstClicked.None? ==> r'.firstClicked == Some(at))
            case _ => r' == r
  {
  }

  /** Only the job that owns the message changes, by the event's own kind and time; one row is added to the
      engagements exactly for an open or a click; the event is marked as processed, for that job, now. Without
      an owner the attempt is counted and nothing else happens; a processed event is left alone. */
  lemma ProcessCases(d: Db, e: EventId, now: real)
    requires e in d.events
    ensures var row, (d', settled) := d.events[e], ProcessEvent(d, e, now);
            && (row.processedAt.Some? ==> settled && d' == d)
            && (row.processedAt.None? && (forall j :: j in d.jobs ==> d.jobs[j].mid != Some(row.mid)) ==>
                  !settled && d' == d.(events := d.events[e := row.(attempts := row.attempts + 1)]))
            && (row.processedAt.None? && UniqueMids(d.jobs) ==>
                  forall j | j in d.jobs && d.jobs[j].mid == Some(row.mid) ::
                    && settled && d'.applied == d.applied[e := j]
                    && d'.jobs == d.jobs[j := ApplyToJob(d.jobs[j], row.kind, row.occurredAt)]
                    && d'.events == d.events[e := row.(job := Some(j), processedAt := Some(now))]
                    && d'.engagements == d.engagements +
                         if row.kind.Opened? || row.kind.Clicked?
                         then [Engagement(j, row.kind, row.occurredAt)] else [])
  {
    var row := d.events[e];
    if row.processedAt.None? {
      assert forall j :: HasMid(d.jobs, j, row.mid) <==> j in d.jobs && d.jobs[j].mid == Some(row.mid);
    }
  }

  method ProcessOneEvent(db: Database, e: EventId, now: real) returns (settled: bool)
    requires UniqueMids(db.jobs)
    modifies db
    ensures (db.View(), settled) == ProcessEvent(old(db.View()), e, now)
  {
    if e !in db.events {
      return false;
    }
    var row := db.events[e];
    if row.processedAt.Some? {
      return true;
    }
    if j :| j in db.jobs && db.jobs[j].mid == Some(row.mid) {
      assert HasMid(db.jobs, j, row.mid);
      assert FindJob(db.jobs, row.mid) == Some(j);
      row := row.(job := Some(j));
      if IsEngagement(row.kind) {
        ApplyEngagement(db, j, row);
      } else if row.kind.Unknown? {
        assert db.jobs == db.jobs[j := db.jobs[j]];  // a kind nobody handles is only logged
      } else {
        ApplyDeliveryStatus(db, j, row.kind);
      }
      db.events := db.events[e := row.(processedAt := Some(now))];
      db.applied := db.applied[e := j];
      return true;
    } else {
      assert forall j :: !HasMid(db.jobs, j, row.mid);
      db.events := db.events[e := row.(attempts := row.attempts + 1)];
      return false;
    }
  }

  method ApplyDeliveryStatus(db: Database, j: JobId, k: EventKind)
    requires j in db.jobs && !IsEngagement(k) && !k.Unknown?
    modifies db`jobs
    ensures db.jobs == old(db.jobs)[j := ApplyToJob(old(db.jobs)[j], k, 0.0)]
  {
    if k.EvSent? {
      assert db.jobs == db.jobs[j := db.jobs[j]];
      return;
    }
    var status := Asserts(k).value;
    if DeliveryRank(Some(status)) <= DeliveryRank(db.jobs[j].delivery) {
      assert db.jobs == db.jobs[j := db.jobs[j]];
      return;
    }
    db.jobs := db.jobs[j := db.jobs[j].(delivery := Some(status))];
  }

  method ApplyEngagement(db: Database, j: JobId, row: EventRow)
    requires j in db.jobs && IsEngagement(row.kind)
    modifies db`jobs, db`engagements
    ensures db.jobs == old(db.jobs)[j := ApplyToJob(old(db.jobs)[j], row.kind, row.occurredAt)]
    ensures db.engagements == old(db.engagements) + [Engagement(j, row.kind, row.occurredAt)]
  {
    db.engagements := db.engagements + [Engagement(j, row.kind, row.occurredAt)];
    var job := db.jobs[j];
    if row.kind.Opened? {
      job := job.(opens := job.opens + 1);
      if job.firstOpened.None? {
        job := job.(firstOpened := Some(row.occurredAt));
      }
    } else {
      job := job.(clicks := job.clicks + 1);
      if job.firstClicked.None? {
        job := job.(firstClicked := Some(row.occurredAt));
      }
    }
    db.jobs := db.jobs[j := job];
  }

  // ---- ingestion ----

  function InsertEvent(d: Db, v: Event, at: real): Db {
    if v.id in d.events then d
    else d.(events := d.events[v.id := EventRow(v.mid, v.kind, v.occurredAt, at, None, None, 0)])
  }

  function InsertEvents(d: Db, vs: seq<Event>, at: real): Db {
    if vs == [] then d else InsertEvent(InsertEvents(d, vs[..|vs| - 1], at), vs[|vs| - 1], at)
  }

  /** Where an event id first occurs in a request. */
  function FirstAt(vs: seq<Event>, e: EventId): nat {
    if vs == [] || vs[0].id == e then 0 else 1 + FirstAt(vs[1..], e)
  }

  lemma {:induction false} FirstAtIs(vs: seq<Event>, e: EventId, n: nat)
    requires n < |vs| && vs[n].id == e && forall i :: 0 <= i < n ==> vs[i].id != e
    ensures FirstAt(vs, e) == n
  {
    if n > 0 {
      assert forall i :: 0 <= i < n - 1 ==> vs[1..][i] == vs[i + 1];
      FirstAtIs(vs[1..], e, n - 1);
    }
  }

  /** Ids in the order in which the request first names them, all before position n. */
  ghost predicate InOrder(vs: seq<Event>, ids: seq<EventId>, n: nat) {
    && (forall i :: 0 <= i < |ids| ==> FirstAt(vs, ids[i]) < n)
    && (forall i, k :: 0 <= i < k < |ids| ==> FirstAt(vs, ids[i]) < FirstAt(vs, ids[k]))
  }

  lemma NextInOrder(vs: seq<Event>, ids: seq<EventId>, n: nat)
    requires InOrder(vs, ids, n) && n < |vs| && forall i :: 0 <= i < n ==> vs[i].id != vs[n].id
    ensures InOrder(vs, ids + [vs[n].id], n + 1)
  {
    FirstAtIs(vs, vs[n].id, n);
    var more := ids + [vs[n].id];
    assert more[|ids|] == vs[n].id && forall i :: 0 <= i < |ids| ==> more[i] == ids[i];
  }

  /** The event table after the first n of a request: what it had, and the first naming of every other id. */
  ghost predicate Ingested(before: map<EventId, EventRow>, events: map<EventId, EventRow>, vs: seq<Event>, at: real,
        n: nat)
    requires n <= |vs|
  {
    && (forall e :: e in events <==> e in before || exists i :: 0 <= i < n && vs[i].id == e)
    && (forall e :: e in before ==> events[e] == before[e])
    && (forall i | 0 <= i < n && vs[i].id !in before && FirstAt(vs, vs[i].id) == i ::
          events[vs[i].id] == EventRow(vs[i].mid, vs[i].kind, vs[i].occurredAt, at, None, None, 0))
  }

  lemma {:induction false} FirstAtBound(vs: seq<Event>, i: nat)
    requires i < |vs|
    ensures FirstAt(vs, vs[i].id) <= i && vs[FirstAt(vs, vs[i].id)].id == vs[i].id
  {
    if vs[0].id != vs[i].id {
      FirstAtBound(vs[1..], i - 1);
    }
  }

  lemma IngestStep(before: map<EventId, EventRow>, events: map<EventId, EventRow>, vs: seq<Event>, at: real, n: nat)
    requires n < |vs| && Ingested(before, events, vs, at, n)
    ensures var v := vs[n];
            Ingested(before, if v.id in events then events
                else events[v.id := EventRow(v.mid, v.kind, v.occurredAt, at, None, None, 0)], vs, at, n + 1)
  {
    var v := vs[n];
    FirstAtBound(vs, n);
    if v.id in events && v.id !in before {
      var i :| 0 <= i < n && vs[i].id == v.id;
      FirstAtBound(vs, i);
      assert FirstAt(vs, v.id) < n;
    }
  }

  /** The insert loop of the endpoint: the ids returned are exactly the ones this request added,
      each once, in order of arrival. */
  method IngestWebhook(db: Database, vs: seq<Event>, at: real) returns (inserted: seq<EventId>)
    modifies db`events
    ensures db.View() == InsertEvents(old(db.View()), vs, at)
    ensures forall e :: e in inserted <==> e in db.events && e !in old(db.events)
    ensures forall i, k :: 0 <= i < k < |inserted| ==> FirstAt(vs, inserted[i]) < FirstAt(vs, inserted[k])
    ensures Ingested(old(db.events), db.events, vs, at, |vs|)
  {
    inserted := [];
    for n := 0 to |vs|
      invariant db.View() == InsertEvents(old(db.View()), vs[..n], at)
      invariant old(db.events).Keys <= db.events.Keys && forall i :: 0 <= i < n ==> vs[i].id in db.events
      invariant forall e :: e in inserted <==> e in db.events && e !in old(db.events)
      invariant InOrder(vs, inserted, n)
      invariant Ingested(old(db.events), db.events, vs, at, n)
    {
      assert vs[..n + 1][..n] == vs[..n];
      var v := vs[n];
      IngestStep(old(db.events), db.events, vs, at, n);
      if v.id !in db.events {
        NextInOrder(vs, inserted, n);
        db.events := db.events[v.id := EventRow(v.mid, v.kind, v.occurredAt, at, None, None, 0)];
        inserted := inserted + [v.id];
      }
    }
    assert vs[..|vs|] == vs;
  }

  ghost function ProcessEvents(d: Db, ids: seq<EventId>, now: real): Db {
    if ids == [] then d else ProcessEvent(ProcessEvents(d, ids[..|ids| - 1], now), ids[|ids| - 1], now).0
  }

  /** The ids whose processing does not fail. */
  function Surviving(ids: seq<EventId>, fails: EventId -> bool): seq<EventId> {
    if ids == [] then []
    else Surviving(ids[..|ids| - 1], fails) + if fails(ids[|ids| - 1]) then [] else [ids[|ids| - 1]]
  }

  lemma {:induction false} SurvivingDoNotFail(ids: seq<EventId>, fails: EventId -> bool)
    ensures forall e :: e in Surviving(ids, fails) <==> e in ids && !fails(e)
  {
    if ids != [] {
      SurvivingDoNotFail(ids[..|ids| - 1], fails);
      assert ids == ids[..|ids| - 1] + [ids[|ids| - 1]];
    }
  }

  lemma {:induction false} ProcessEventsOthers(d: Db, ids: seq<EventId>, now: real, e: EventId)
    requires e in d.events && e !in ids
    ensures e in ProcessEvents(d, ids, now).events && ProcessEvents(d, ids, now).events[e] == d.events[e]
  {
    if ids != [] {
      ProcessEventsOthers(d, ids[..|ids| - 1], now, e);
      assert ids[|ids| - 1] != e;
    }
  }

  /** The background task of the endpoint, an event a session: one that fails is rolled back on its own and
      left as it was, for the sweeper; the others are processed in order. */
  method ProcessInserted(db: Database, ids: seq<EventId>, fails: EventId -> bool, now: real)
    requires UniqueMids(db.jobs)
    modifies db
    ensures db.View() == ProcessEvents(old(db.View()), Surviving(ids, fails), now)
    ensures forall e :: e in old(db.events) && fails(e) ==> e in db.events && db.events[e] == old(db.events)[e]
  {
    ghost var d := db.View();
    for n := 0 to |ids|
      invariant db.View() == ProcessEvents(d, Surviving(ids[..n], fails), now)
      invariant UniqueMids(db.jobs)
    {
      assert ids[..n + 1][..n] == ids[..n];
      if !fails(ids[n]) {
        ghost var before := Surviving(ids[..n], fails);
        assert (before + [ids[n]])[..|before|] == before;
        ProcessKeepsIdentity(db.View(), ids[n], now);
        var _ := ProcessOneEvent(db, ids[n], now);
      } else {
        assert Surviving(ids[..n], fails) + [] == Surviving(ids[..n], fails);
      }
    }
    assert ids[..|ids|] == ids;
    SurvivingDoNotFail(ids, fails);
    forall e | e in d.events && fails(e) ensures e in db.events && db.events[e] == d.events[e] {
      ProcessEventsOthers(d, Surviving(ids, fails), now, e);
    }
  }

  // ---- what processing leaves alone ----

  /** The worker's half of a row: everything the webhooks may not touch. */
  ghost predicate SameSendAxis(a: EmailJob, b: EmailJob) {
    a.status == b.status && a.mid == b.mid && a.sentAt == b.sentAt && a.campaign == b.campaign && a.toAddr == b.toAddr
  }

  /** The webhooks' half. */
  ghost predicate SameDeliveryAxis(a: EmailJob, b: EmailJob) {
    a.delivery == b.delivery && a.opens == b.opens && a.clicks == b.clicks &&
    a.firstOpened == b.firstOpened && a.firstClicked == b.firstClicked
  }

  lemma ProcessKeepsIdentity(d: Db, e: EventId, now: real)
    ensures var d' := ProcessEvent(d, e, now).0;
            && (forall j :: j in d.jobs ==> SameSendAxis(d.jobs[j], d'.jobs[j]))
            && (forall j :: j in d.jobs && d'.jobs[j] != d.jobs[j] ==> d.jobs[j].mid.Some?)
    ensures UniqueMids(d.jobs) ==> UniqueMids(ProcessEvent(d, e, now).0.jobs)
  {
  }

  // ---- the sweeper ----

  ghost function SweepOne(d: Db, e: EventId, now: real): (Db, bool) {
    if e in d.events && now - d.events[e].receivedAt > ORPHAN_GIVE_UP_AFTER then
      (d.(events := d.events[e := d.events[e].(processedAt := Some(now))]), false)
    else ProcessEvent(d, e, now)
  }

  ghost function SweepAll(d: Db, ids: seq<EventId>, now: real): (Db, nat) {
    if ids == [] then (d, 0)
    else
      var (d1, n) := SweepAll(d, ids[..|ids| - 1], now);
      var (d2, settled) := SweepOne(d1, ids[|ids| - 1], now);
      (d2, if settled then n + 1 else n)
  }

  predicate IsOrphan(d: Db, e: EventId) {
    e in d.events && d.events[e].job.None? && d.events[e].processedAt.None?
  }

  ghost predicate ListsOrphans(d: Db, ids: seq<EventId>) {
    (forall e :: e in ids <==> IsOrphan(d, e)) && (forall i, k :: 0 <= i < k < |ids| ==> ids[i] != ids[k])
  }

  /** One pass in whatever order the rows came back. */
  method SweepOnce(db: Database, now: real) returns (resolved: nat, remaining: nat, ghost order: seq<EventId>)
    requires UniqueMids(db.jobs)
    modifies db
    ensures ListsOrphans(old(db.View()), order)
    ensures (db.View(), resolved) == SweepAll(old(db.View()), order, now)
    ensures resolved + remaining == |order|
  {
    var todo := set e | e in db.events && db.events[e].job.None? && db.events[e].processedAt.None?;
    var total := |todo|;
    ghost var d, all := db.View(), todo;
    order := [];
    resolved := 0;
    while todo != {}
      invariant UniqueMids(db.jobs) && db.events.Keys == d.events.Keys
      invariant Swept(all, todo, order)
      invariant (db.View(), resolved) == SweepAll(d, order, now)
      invariant |order| + |todo| == total && resolved <= |order|
    {
      var e :| e in todo;
      SweptOneMore(all, todo, order, e);
      SweepOneMore(d, order, e, now);
      todo := todo - {e};
      order := order + [e];
      var settled := SweepEvent(db, e, now);
      if settled {
        resolved := resolved + 1;
      }
    }
    remaining := total - resolved;
  }

  lemma SweepOneMore(d: Db, order: seq<EventId>, e: EventId, now: real)
    ensures var (d1, n) := SweepAll(d, order, now);
            var (d2, settled) := SweepOne(d1, e, now);
            SweepAll(d, order + [e], now) == (d2, if settled then n + 1 else n)
  {
    assert (order + [e])[..|order|] == order;
  }

  /** `order` lists, each once, the events of `all` that are not left to do. */
  ghost predicate Swept(all: set<EventId>, todo: set<EventId>, order: seq<EventId>) {
    && (forall e :: e in order <==> e in all && e !in todo) && todo <= all
    && (forall i, k :: 0 <= i < k < |order| ==> order[i] != order[k])
  }

  lemma SweptOneMore(all: set<EventId>, todo: set<EventId>, order: seq<EventId>, e: EventId)
    requires Swept(all, todo, order) && e in todo
    ensures Swept(all, todo - {e}, order + [e])
  {
    assert e !in order;
  }

  /** The body of the sweep: abandon an event that is too old, try the others again. */
  method SweepEvent(db: Database, e: EventId, now: real) returns (settled: bool)
    requires UniqueMids(db.jobs) && e in db.events
    modifies db
    ensures (db.View(), settled) == SweepOne(old(db.View()), e, now)
    ensures now - old(db.events)[e].receivedAt > 24.0 * 3600.0 ==>
              && !settled && db.jobs == old(db.jobs) && db.engagements == old(db.engagements)
              && db.events == old(db.events)[e := old(db.events)[e].(processedAt := Some(now))]
    ensures now - old(db.events)[e].receivedAt <= 24.0 * 3600.0 ==>
              (db.View(), settled) == ProcessEvent(old(db.View()), e, now)
    ensures UniqueMids(db.jobs) && db.events.Keys == old(db.events).Keys
  {
    ProcessKeepsIdentity(db.View(), e, now);
    if now - db.events[e].receivedAt > ORPHAN_GIVE_UP_AFTER {
      db.events := db.events[e := db.events[e].(processedAt := Some(now))];
      return false;
    }
    settled := ProcessOneEvent(db, e, now);
  }

  ghost predicate Matched(d: Db, e: EventId) {
    e in d.events && FindJob(d.jobs, d.events[e].mid).Some?
  }

  /** What a step of the sweep may do to the identity of rows and to the set of orphans. */
  ghost predicate SweepFrame(d: Db, d': Db) {
    && d'.events.Keys == d.events.Keys
    && (forall m :: FindJob(d'.jobs, m).None? <==> FindJob(d.jobs, m).None?)
    && (forall e :: e in d.events ==> d'.events[e].mid == d.events[e].mid)
    && (forall e :: IsOrphan(d', e) ==> IsOrphan(d, e))
  }

  lemma SweepOneEffect(d: Db, e: EventId, now: real)
    ensures SweepFrame(d, SweepOne(d, e, now).0)
    ensures IsOrphan(SweepOne(d, e, now).0, e) ==> !Matched(SweepOne(d, e, now).0, e)
  {
    var d' := SweepOne(d, e, now).0;
    ProcessKeepsIdentity(d, e, now);
    forall m ensures FindJob(d'.jobs, m).None? <==> FindJob(d.jobs, m).None? {
      assert forall j :: HasMid(d.jobs, j, m) <==> HasMid(d'.jobs, j, m);
    }
  }

  /** Sweeping a list of ids leaves, among them, only orphans that no job owns. */
  lemma {:induction false} SweepSettles(d: Db, ids: seq<EventId>, now: real)
    ensures SweepFrame(d, SweepAll(d, ids, now).0)
    ensures forall e :: e in ids && IsOrphan(SweepAll(d, ids, now).0, e) ==> !Matched(SweepAll(d, ids, now).0, e)
  {
    if ids != [] {
      var init, last := ids[..|ids| - 1], ids[|ids| - 1];
      SweepSettles(d, init, now);
      SweepOneEffect(SweepAll(d, init, now).0, last, now);
      assert forall e :: e in ids ==> e in init || e == last;
    }
  }

  /** After a sweep, no unowned unprocessed event has a job, and a second sweep settles nothing. */
  lemma SecondSweepResolvesNothing(d: Db, ids: seq<EventId>, now: real, again: seq<EventId>, later: real)
    requires ListsOrphans(d, ids)
    requires ListsOrphans(SweepAll(d, ids, now).0, again)
    ensures forall e :: IsOrphan(SweepAll(d, ids, now).0, e) ==> !Matched(SweepAll(d, ids, now).0, e)
    ensures SweepAll(SweepAll(d, ids, now).0, again, later).1 == 0
  {
    SweepSettles(d, ids, now);
    SweepUnmatched(SweepAll(d, ids, now).0, again, later);
  }

  lemma {:induction false} SweepUnmatched(d: Db, ids: seq<EventId>, now: real)
    requires forall e :: e in ids ==> IsOrphan(d, e) && !Matched(d, e)
    requires forall i, k :: 0 <= i < k < |ids| ==> ids[i] != ids[k]
    ensures SweepAll(d, ids, now).1 == 0 && SweepAll(d, ids, now).0.jobs == d.jobs
    ensures var d' := SweepAll(d, ids, now).0;
            d'.events.Keys == d.events.Keys && forall e :: e in d.events && e !in ids ==> d'.events[e] == d.events[e]
  {
    if ids != [] {
      var init, last := ids[..|ids| - 1], ids[|ids| - 1];
      assert forall i :: 0 <= i < |init| ==> init[i] == ids[i] && init[i] != last;
      assert last in ids && last !in init;
      SweepUnmatched(d, init, now);
      assert !Matched(d, last);
    }
  }

  /** An orphan the sweep does not give up on, and that some job owns by now. */
  ghost predicate Resolvable(d: Db, e: EventId, now: real) {
    IsOrphan(d, e) && now - d.events[e].receivedAt <= ORPHAN_GIVE_UP_AFTER && Matched(d, e)
  }

  /** What a step on e leaves of every other event. */
  lemma SweepOneOthers(d: Db, e: EventId, now: real, f: EventId)
    requires f != e
    ensures Resolvable(SweepOne(d, e, now).0, f, now) <==> Resolvable(d, f, now)
  {
    SweepOneEffect(d, e, now);
    var d' := SweepOne(d, e, now).0;
    assert f in d.events ==> d'.events[f] == d.events[f];
  }

  lemma {:induction false} SweepOthers(d: Db, ids: seq<EventId>, now: real, f: EventId)
    requires f !in ids
    ensures Resolvable(SweepAll(d, ids, now).0, f, now) <==> Resolvable(d, f, now)
    ensures IsOrphan(SweepAll(d, ids, now).0, f) <==> IsOrphan(d, f)
  {
    if ids != [] {
      SweepOthers(d, ids[..|ids| - 1], now, f);
      SweepOneOthers(SweepAll(d, ids[..|ids| - 1], now).0, ids[|ids| - 1], now, f);
      OrphanStaysPut(SweepAll(d, ids[..|ids| - 1], now).0, ids[|ids| - 1], now, f);
    }
  }

  lemma OrphanStaysPut(d: Db, e: EventId, now: real, f: EventId)
    requires f != e
    ensures IsOrphan(SweepOne(d, e, now).0, f) <==> IsOrphan(d, f)
  {
  }

  ghost function ResolvableOf(d: Db, ids: seq<EventId>, now: real): set<EventId> {
    set e | e in ids && Resolvable(d, e, now)
  }

  lemma SweepOneCounts(d: Db, e: EventId, now: real)
    requires IsOrphan(d, e)
    ensures SweepOne(d, e, now).1 <==> Resolvable(d, e, now)
  {
  }

  lemma OneMoreResolvable(d: Db, init: seq<EventId>, last: EventId, now: real)
    requires last !in init
    ensures |ResolvableOf(d, init + [last], now)| ==
            |ResolvableOf(d, init, now)| + if Resolvable(d, last, now) then 1 else 0
  {
    assert ResolvableOf(d, init + [last], now) ==
           ResolvableOf(d, init, now) + if Resolvable(d, last, now) then {last} else {};
  }

  /** The number a sweep reports is the number of orphans that were young enough and owned by a job
      when it began. */
  lemma {:induction false} SweepResolvesTheOwned(d: Db, ids: seq<EventId>, now: real)
    requires forall e :: e in ids ==> IsOrphan(d, e)
    requires forall i, k :: 0 <= i < k < |ids| ==> ids[i] != ids[k]
    ensures SweepAll(d, ids, now).1 == |ResolvableOf(d, ids, now)|
  {
    if ids == [] {
      assert ResolvableOf(d, ids, now) == {};
    } else {
      var init, last := ids[..|ids| - 1], ids[|ids| - 1];
      assert forall i :: 0 <= i < |init| ==> init[i] == ids[i] && ids[i] != last;
      assert last in ids && last !in init && ids == init + [last];
      SweepResolvesTheOwned(d, init, now);
      SweepOthers(d, init, now, last);
      SweepOneCounts(SweepAll(d, init, now).0, last, now);
      OneMoreResolvable(d, init, last, now);
    }
  }
}
