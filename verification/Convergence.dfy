/** The job row as a cache of the applied events, and what that says about webhooks that arrive
    in any order and any number of times. */
module Convergence {
  import opened Prelude
  import opened Transitions
  import opened Models
  import opened Webhooks

  ghost function AppliedTo(d: Db, j: JobId): set<EventId> {
    set e | e in d.applied && d.applied[e] == j
  }

  ghost function AppliedOf(d: Db, j: JobId, k: EventKind): set<EventId> {
    set e | e in d.applied && d.applied[e] == j && e in d.events && d.events[e].kind == k
  }

  function EngagementRows(es: seq<Engagement>, j: JobId, k: EventKind): nat {
    if es == [] then 0
    else
      var last := es[|es| - 1];
      EngagementRows(es[..|es| - 1], j, k) + (if last.job == j && last.kind == k then 1 else 0)
  }

  /** s is the status of highest rank that some event of the set asserts; None when none asserts any. */
  ghost predicate IsHighest(s: Option<DeliveryStatus>, ids: set<EventId>, events: map<EventId, EventRow>)
    requires ids <= events.Keys
  {
    && (forall e :: e in ids ==> DeliveryRank(Asserts(events[e].kind)) <= DeliveryRank(s))
    && (s.Some? ==> exists e :: e in ids && Asserts(events[e].kind) == s)
  }

  ghost predicate CountsAgree(d: Db, j: JobId)
    requires j in d.jobs
  {
    var r := d.jobs[j];
    && r.opens == |AppliedOf(d, j, Opened)| == EngagementRows(d.engagements, j, Opened)
    && r.clicks == |AppliedOf(d, j, Clicked)| == EngagementRows(d.engagements, j, Clicked)
    && (r.firstOpened.Some? <==> r.opens > 0)
    && (r.firstClicked.Some? <==> r.clicks > 0)
  }

  ghost predicate JobAgrees(d: Db, j: JobId)
    requires j in d.jobs && LogOk(d)
  {
    CountsAgree(d, j) && IsHighest(d.jobs[j].delivery, AppliedTo(d, j), d.events)
  }

  ghost predicate LogOk(d: Db) {
    forall e :: e in d.applied ==> e in d.events && d.applied[e] in d.jobs && d.events[e].processedAt.Some?
  }

  /** The cache invariant: counters, first timestamps and delivery status of every job are what the
      log of applied events says. */
  ghost predicate Agrees(d: Db) {
    LogOk(d) && forall j :: j in d.jobs ==> JobAgrees(d, j)
  }

  /** d' is d after e has been applied to its job. */
  ghost predicate Applies(d: Db, d': Db, e: EventId, owner: JobId) {
    && e in d.events && e !in d.applied && owner in d.jobs
    && var row := d.events[e];
    && d'.applied == d.applied[e := owner]
    && d'.jobs == d.jobs[owner := ApplyToJob(d.jobs[owner], row.kind, row.occurredAt)]
    && d'.engagements ==
         (if IsEngagement(row.kind)
          then d.engagements + [Engagement(owner, row.kind, row.occurredAt)]
          else d.engagements)
    && e in d'.events && d'.events == d.events[e := d'.events[e]]
    && d'.events[e].kind == row.kind && d'.events[e].processedAt.Some?
  }

  lemma AppliedSets(d: Db, d': Db, e: EventId, owner: JobId, j: JobId)
    requires Applies(d, d', e, owner)
    ensures AppliedTo(d', j) == AppliedTo(d, j) + if j == owner then {e} else {}
    ensures e !in AppliedTo(d, j)
  {
  }

  lemma OneMoreOf(d: Db, d': Db, e: EventId, owner: JobId, j: JobId, k: EventKind)
    requires Applies(d, d', e, owner)
    ensures AppliedOf(d', j, k) == AppliedOf(d, j, k) + if j == owner && d.events[e].kind == k then {e} else {}
    ensures e !in AppliedOf(d, j, k)
  {
  }

  lemma AppliedKinds(d: Db, d': Db, e: EventId, owner: JobId, j: JobId, k: EventKind)
    requires Applies(d, d', e, owner) && IsEngagement(k)
    ensures |AppliedOf(d', j, k)| == |AppliedOf(d, j, k)| + if j == owner && d.events[e].kind == k then 1 else 0
    ensures EngagementRows(d'.engagements, j, k)
         == EngagementRows(d.engagements, j, k) + if j == owner && d.events[e].kind == k then 1 else 0
  {
    OneMoreOf(d, d', e, owner, j, k);
    if IsEngagement(d.events[e].kind) {
      assert d'.engagements[..|d'.engagements| - 1] == d.engagements;
    }
  }

  lemma AppliesKeepsCounts(d: Db, d': Db, e: EventId, owner: JobId, j: JobId)
    requires Applies(d, d', e, owner) && j in d.jobs && CountsAgree(d, j)
    ensures CountsAgree(d', j)
  {
    AppliedKinds(d, d', e, owner, j, Opened);
    AppliedKinds(d, d', e, owner, j, Clicked);
  }

  /** The rank test keeps the maximum. */
  lemma HighestAfterOneMore(r: EmailJob, ids: set<EventId>, e: EventId, events: map<EventId, EventRow>)
    requires ids <= events.Keys && e in events
    requires IsHighest(r.delivery, ids, events)
    ensures IsHighest(ApplyToJob(r, events[e].kind, events[e].occurredAt).delivery, ids + {e}, events)
  {
    var s := r.delivery;
    var s' := ApplyToJob(r, events[e].kind, events[e].occurredAt).delivery;
    if s'.Some? {
      if s' == s {
        var x :| x in ids && Asserts(events[x].kind) == s;
        assert x in ids + {e};
      } else {
        assert e in ids + {e};
      }
    }
  }

  lemma SameKindsSameHighest(s: Option<DeliveryStatus>, ids: set<EventId>,
      a: map<EventId, EventRow>, b: map<EventId, EventRow>)
    requires ids <= a.Keys && ids <= b.Keys && forall e :: e in ids ==> a[e].kind == b[e].kind
    requires IsHighest(s, ids, a)
    ensures IsHighest(s, ids, b)
  {
    if s.Some? {
      var e :| e in ids && Asserts(a[e].kind) == s;
      assert Asserts(b[e].kind) == s;
    }
  }

  lemma AppliesKeepsHighest(d: Db, d': Db, e: EventId, owner: JobId, j: JobId)
    requires Applies(d, d', e, owner) && LogOk(d) && j in d.jobs
    requires IsHighest(d.jobs[j].delivery, AppliedTo(d, j), d.events)
    ensures AppliedTo(d', j) <= d'.events.Keys && IsHighest(d'.jobs[j].delivery, AppliedTo(d', j), d'.events)
  {
    AppliedSets(d, d', e, owner, j);
    if j == owner {
      HighestAfterOneMore(d.jobs[j], AppliedTo(d, j), e, d.events);
    }
    SameKindsSameHighest(d'.jobs[j].delivery, AppliedTo(d', j), d.events, d'.events);
  }

  lemma AppliesKeepsAgreement(d: Db, d': Db, e: EventId, owner: JobId)
    requires Applies(d, d', e, owner) && Agrees(d)
    ensures Agrees(d')
  {
    forall j | j in d'.jobs ensures JobAgrees(d', j) {
      assert JobAgrees(d, j);
      AppliesKeepsCounts(d, d', e, owner, j);
      AppliesKeepsHighest(d, d', e, owner, j);
    }
  }

  /** process_one_event keeps the cache in agreement with the log. */
  lemma ProcessKeepsAgreement(d: Db, e: EventId, now: real)
    requires Agrees(d)
    ensures Agrees(ProcessEvent(d, e, now).0)
  {
    var d' := ProcessEvent(d, e, now).0;
    if e in d.events && d.events[e].processedAt.None? && FindJob(d.jobs, d.events[e].mid).Some? {
      AppliesKeepsAgreement(d, d', e, FindJob(d.jobs, d.events[e].mid).value);
    } else {
      SameLogSameAgreement(d, d');
    }
  }

  /** Agreement only depends on the webhooks' half of the job rows, on the log and on event kinds. */
  /** Event e of kind k has been applied to j. */
  ghost predicate Told(d: Db, j: JobId, k: EventKind) {
    exists e :: e in d.applied && d.applied[e] == j && e in d.events && d.events[e].kind == k
  }

  lemma HighestTold(d: Db, j: JobId)
    requires Agrees(d) && j in d.jobs
    ensures var s := d.jobs[j].delivery;
            && (forall k :: Told(d, j, k) ==> DeliveryRank(Asserts(k)) <= DeliveryRank(s))
            && (s.Some? ==> exists k :: Told(d, j, k) && Asserts(k) == s)
  {
    assert JobAgrees(d, j);
    var s := d.jobs[j].delivery;
    forall k | Told(d, j, k) ensures DeliveryRank(Asserts(k)) <= DeliveryRank(s) {
      var e :| e in d.applied && d.applied[e] == j && e in d.events && d.events[e].kind == k;
      assert e in AppliedTo(d, j);
    }
    if s.Some? {
      var e :| e in AppliedTo(d, j) && Asserts(d.events[e].kind) == s;
      assert Told(d, j, d.events[e].kind);
    }
  }

  /** The status of a job by name: nothing as long as none of the four kinds has been applied, deferred if
      that is the only one, then delivered, bounced and complained, each over all before it. */
  lemma StatusByName(d: Db, j: JobId)
    requires Agrees(d) && j in d.jobs
    ensures var s, deferred, delivered := d.jobs[j].delivery, Told(d, j, EvDeferred), Told(d, j, EvDelivered);
            var bounced, complained := Told(d, j, EvBounced), Told(d, j, EvComplained);
            && (s == None <==> !deferred && !delivered && !bounced && !complained)
            && (s == Some(Deferred) <==> deferred && !delivered && !bounced && !complained)
            && (s == Some(Delivered) <==> delivered && !bounced && !complained)
            && (s == Some(Bounced) <==> bounced && !complained)
            && (s == Some(Complained) <==> complained)
  {
    HighestTold(d, j);
    var s := d.jobs[j].delivery;
    assert Told(d, j, EvDeferred) ==> DeliveryRank(Some(Deferred)) <= DeliveryRank(s);
    assert Told(d, j, EvDelivered) ==> DeliveryRank(Some(Delivered)) <= DeliveryRank(s);
    assert Told(d, j, EvBounced) ==> DeliveryRank(Some(Bounced)) <= DeliveryRank(s);
    assert Told(d, j, EvComplained) ==> DeliveryRank(Some(Complained)) <= DeliveryRank(s);
  }

  lemma SameLogSameAgreement(d: Db, d': Db)
    requires Agrees(d)
    requires d'.applied == d.applied && d'.engagements == d.engagements
    requires d'.jobs.Keys == d.jobs.Keys && forall j :: j in d.jobs ==> SameDeliveryAxis(d.jobs[j], d'.jobs[j])
    requires forall e :: e in d.events ==> e in d'.events && d'.events[e].kind == d.events[e].kind
    requires forall e :: e in d.events && d.events[e].processedAt.Some? ==> d'.events[e].processedAt.Some?
    ensures Agrees(d')
  {
    forall j | j in d'.jobs ensures JobAgrees(d', j) {
      assert JobAgrees(d, j);
      SameLogSameJob(d, d', j);
    }
  }

  lemma SameLogSameJob(d: Db, d': Db, j: JobId)
    requires LogOk(d) && LogOk(d') && j in d.jobs && j in d'.jobs && JobAgrees(d, j)
    requires d'.applied == d.applied && d'.engagements == d.engagements && SameDeliveryAxis(d.jobs[j], d'.jobs[j])
    requires forall e :: e in d.events ==> e in d'.events && d'.events[e].kind == d.events[e].kind
    ensures JobAgrees(d', j)
  {
    assert AppliedTo(d', j) == AppliedTo(d, j);
    assert AppliedOf(d', j, Opened) == AppliedOf(d, j, Opened);
    assert AppliedOf(d', j, Clicked) == AppliedOf(d, j, Clicked);
    SameKindsSameHighest(d.jobs[j].delivery, AppliedTo(d, j), d.events, d'.events);
  }

  lemma SweepKeepsAgreement(d: Db, e: EventId, now: real)
    requires Agrees(d)
    ensures Agrees(SweepOne(d, e, now).0)
  {
    if e in d.events && now - d.events[e].receivedAt > ORPHAN_GIVE_UP_AFTER {
      SameLogSameAgreement(d, SweepOne(d, e, now).0);
    } else {
      ProcessKeepsAgreement(d, e, now);
    }
  }

  /** A new job starts in agreement: nothing has been applied to it. */
  lemma NewJobAgrees(d: Db, j: JobId, r: EmailJob)
    requires Agrees(d) && j !in d.jobs && r == NewJob(r.campaign, r.toAddr)
    requires forall i :: 0 <= i < |d.engagements| ==> d.engagements[i].job in d.jobs
    ensures Agrees(d.(jobs := d.jobs[j := r]))
  {
    var d' := d.(jobs := d.jobs[j := r]);
    NoRows(d.engagements, j, Opened);
    NoRows(d.engagements, j, Clicked);
    assert AppliedTo(d', j) == {} && AppliedOf(d', j, Opened) == {} && AppliedOf(d', j, Clicked) == {};
    forall i | i in d'.jobs ensures JobAgrees(d', i) {
      if i != j {
        assert JobAgrees(d, i);
        SameLogSameJob(d, d', i);
      }
    }
  }

  lemma {:induction false} NoRows(es: seq<Engagement>, j: JobId, k: EventKind)
    requires forall i :: 0 <= i < |es| ==> es[i].job != j
    ensures EngagementRows(es, j, k) == 0
  {
    if es != [] {
      NoRows(es[..|es| - 1], j, k);
    }
  }

  // ---- convergence ----

  /** One webhook: stored unless its id is known, and if stored then processed. */
  ghost function Arrive(d: Db, v: Event, at: real): (r: Db)
    ensures r.jobs.Keys == d.jobs.Keys
  {
    if v.id in d.events then d else ProcessEvent(InsertEvent(d, v, at), v.id, at).0
  }

  datatype Arrival = Arrival(event: Event, at: real)

  ghost function ArriveAll(d: Db, arrivals: seq<Arrival>): (r: Db)
    ensures r.jobs.Keys == d.jobs.Keys
  {
    if arrivals == [] then d
    else
      var last := arrivals[|arrivals| - 1];
      Arrive(ArriveAll(d, arrivals[..|arrivals| - 1]), last.event, last.at)
  }

  ghost function EventsIn(arrivals: seq<Arrival>): set<Event> {
    set i | 0 <= i < |arrivals| :: arrivals[i].event
  }

  ghost function IdsFor(vs: set<Event>, m: MessageId): set<EventId> {
    set v | v in vs && v.mid == m :: v.id
  }

  ghost function IdsOf(vs: set<Event>, m: MessageId, k: EventKind): set<EventId> {
    set v | v in vs && v.mid == m && v.kind == k :: v.id
  }

  /** Equal ids mean equal events, as with ids derived by hashing the content. */
  ghost predicate Coherent(vs: set<Event>) {
    forall v, w :: v in vs && w in vs && v.id == w.id ==> v == w
  }

  /** All of these events have reached the tables, and those that concern j are applied to it. */
  ghost predicate Reached(d0: Db, d: Db, vs: set<Event>, j: JobId, m: MessageId) {
    && LogOk(d) && UniqueMids(d.jobs) && j in d.jobs && d.jobs[j].mid == Some(m)
    && Stored(d0, d, vs)
    && AppliedTo(d, j) == AppliedTo(d0, j) + IdsFor(vs, m)
  }

  ghost predicate Stored(d0: Db, d: Db, vs: set<Event>) {
    && d.events.Keys == d0.events.Keys + (set v | v in vs :: v.id)
    && (forall e :: e in d0.events ==> d.events[e] == d0.events[e])
    && (forall v :: v in vs ==> v.id in d.events && d.events[v.id].kind == v.kind && d.events[v.id].mid == v.mid)
  }

  lemma ArriveKnown(d0: Db, d: Db, vs: set<Event>, v: Event, j: JobId, m: MessageId)
    requires Reached(d0, d, vs, j, m) && Coherent(vs + {v}) && v.id !in d0.events && v.id in d.events
    ensures Reached(d0, d, vs + {v}, j, m)
  {
    var w :| w in vs && w.id == v.id;
    assert vs + {v} == vs by { assert w in vs + {v} && v in vs + {v}; }
  }

  lemma StoreNew(d0: Db, d: Db, vs: set<Event>, v: Event, at: real)
    requires Stored(d0, d, vs) && v.id !in d.events
    ensures Stored(d0, Arrive(d, v, at), vs + {v})
  {
    assert (set w | w in vs + {v} :: w.id) == (set w | w in vs :: w.id) + {v.id};
    var d1, d2 := InsertEvent(d, v, at), Arrive(d, v, at);
    assert forall e :: e in d.events ==> d2.events[e] == d.events[e];
    assert d2.events[v.id].kind == v.kind && d2.events[v.id].mid == v.mid;
  }

  lemma ArriveKeepsAgreement(d: Db, v: Event, at: real)
    requires Agrees(d)
    ensures Agrees(Arrive(d, v, at))
  {
    if v.id !in d.events {
      var d1 := InsertEvent(d, v, at);
      SameLogSameAgreement(d, d1);
      ProcessKeepsAgreement(d1, v.id, at);
    }
  }

  lemma NewlyApplied(d: Db, v: Event, at: real, j: JobId, m: MessageId)
    requires LogOk(d) && UniqueMids(d.jobs) && HasMid(d.jobs, j, m) && v.id !in d.events
    ensures AppliedTo(Arrive(d, v, at), j) == AppliedTo(d, j) + if v.mid == m then {v.id} else {}
    ensures UniqueMids(Arrive(d, v, at).jobs) && HasMid(Arrive(d, v, at).jobs, j, m)
  {
    var d1 := InsertEvent(d, v, at);
    ProcessKeepsIdentity(d1, v.id, at);
    assert FindJob(d1.jobs, v.mid) == Some(j) <==> v.mid == m;
    assert v.id !in d.applied;
  }

  lemma OneMoreId(vs: set<Event>, v: Event, m: MessageId)
    ensures IdsFor(vs + {v}, m) == IdsFor(vs, m) + if v.mid == m then {v.id} else {}
  {
  }

  lemma ArriveNew(d0: Db, d: Db, vs: set<Event>, v: Event, at: real, j: JobId, m: MessageId)
    requires Reached(d0, d, vs, j, m) && v.id !in d.events && LogOk(Arrive(d, v, at))
    ensures Reached(d0, Arrive(d, v, at), vs + {v}, j, m)
  {
    var d' := Arrive(d, v, at);
    assert Stored(d0, d', vs + {v}) by { StoreNew(d0, d, vs, v, at); }
    assert HasMid(d.jobs, j, m);
    NewlyApplied(d, v, at, j, m);
    assert AppliedTo(d', j) == AppliedTo(d0, j) + IdsFor(vs + {v}, m) by { OneMoreId(vs, v, m); }
  }

  lemma {:induction false} ArriveEach(d0: Db, arrivals: seq<Arrival>, j: JobId, m: MessageId)
    requires Agrees(d0) && UniqueMids(d0.jobs) && j in d0.jobs && d0.jobs[j].mid == Some(m)
    requires Coherent(EventsIn(arrivals)) && forall v :: v in EventsIn(arrivals) ==> v.id !in d0.events
    ensures Reached(d0, ArriveAll(d0, arrivals), EventsIn(arrivals), j, m) && Agrees(ArriveAll(d0, arrivals))
  {
    if arrivals == [] {
      assert IdsFor({}, m) == {} && EventsIn(arrivals) == {};
      assert AppliedTo(d0, j) == AppliedTo(d0, j) + {};
    } else {
      var init, last := arrivals[..|arrivals| - 1], arrivals[|arrivals| - 1];
      assert EventsIn(arrivals) == EventsIn(init) + {last.event} by {
        assert forall i :: 0 <= i < |init| ==> init[i] == arrivals[i];
        assert forall v :: v in EventsIn(arrivals) ==> v in EventsIn(init) || v == last.event;
      }
      ArriveEach(d0, init, j, m);
      ArriveKeepsAgreement(ArriveAll(d0, init), last.event, last.at);
      if last.event.id in ArriveAll(d0, init).events {
        ArriveKnown(d0, ArriveAll(d0, init), EventsIn(init), last.event, j, m);
      } else {
        ArriveNew(d0, ArriveAll(d0, init), EventsIn(init), last.event, last.at, j, m);
      }
    }
  }

  /** What a job shows of its webhooks. */
  datatype Shown = Shown(delivery: Option<DeliveryStatus>, opens: nat, clicks: nat)

  function Show(r: EmailJob): Shown {
    Shown(r.delivery, r.opens, r.clicks)
  }

  lemma HighestIsUnique(s: Option<DeliveryStatus>, t: Option<DeliveryStatus>, ids: set<EventId>,
      a: map<EventId, EventRow>, b: map<EventId, EventRow>)
    requires ids <= a.Keys && ids <= b.Keys && forall e :: e in ids ==> a[e].kind == b[e].kind
    requires IsHighest(s, ids, a) && IsHighest(t, ids, b)
    ensures s == t
  {
    if s.Some? {
      var e :| e in ids && Asserts(a[e].kind) == s;
    }
    if t.Some? {
      var e :| e in ids && Asserts(b[e].kind) == t;
    }
    assert DeliveryRank(s) == DeliveryRank(t);
  }

  /** The arrivals that are not redeliveries of events stored before the stretch began. */
  function Fresh(d0: Db, arrivals: seq<Arrival>): seq<Arrival> {
    if arrivals == [] then []
    else
      var last := arrivals[|arrivals| - 1];
      Fresh(d0, arrivals[..|arrivals| - 1]) + if last.event.id in d0.events then [] else [last]
  }

  /** The events that a stretch brings and the tables did not have. */
  ghost function NewIn(d0: Db, arrivals: seq<Arrival>): set<Event> {
    set v | v in EventsIn(arrivals) && v.id !in d0.events
  }

  lemma OneMoreArrival(init: seq<Arrival>, last: Arrival)
    ensures EventsIn(init + [last]) == EventsIn(init) + {last.event}
  {
    var all := init + [last];
    assert all[|init|] == last && forall i :: 0 <= i < |init| ==> all[i] == init[i];
    assert forall v :: v in EventsIn(all) ==> v in EventsIn(init) || v == last.event;
  }

  /** Redelivery of what is stored cannot be seen at all. */
  lemma {:induction false} RedeliveryIsInvisible(d0: Db, arrivals: seq<Arrival>)
    ensures ArriveAll(d0, arrivals) == ArriveAll(d0, Fresh(d0, arrivals))
    ensures d0.events.Keys <= ArriveAll(d0, arrivals).events.Keys
    ensures EventsIn(Fresh(d0, arrivals)) == NewIn(d0, arrivals)
  {
    if arrivals != [] {
      var init, last := arrivals[..|arrivals| - 1], arrivals[|arrivals| - 1];
      RedeliveryIsInvisible(d0, init);
      assert arrivals == init + [last];
      OneMoreArrival(init, last);
      FreshStep(d0, init, last);
    } else {
      assert EventsIn(arrivals) == {};
    }
  }

  lemma FreshStep(d0: Db, init: seq<Arrival>, last: Arrival)
    requires ArriveAll(d0, init) == ArriveAll(d0, Fresh(d0, init)) && d0.events.Keys <= ArriveAll(d0, init).events.Keys
    requires EventsIn(Fresh(d0, init)) == NewIn(d0, init) && EventsIn(init + [last]) == EventsIn(init) + {last.event}
    ensures ArriveAll(d0, init + [last]) == ArriveAll(d0, Fresh(d0, init + [last]))
    ensures d0.events.Keys <= ArriveAll(d0, init + [last]).events.Keys
    ensures EventsIn(Fresh(d0, init + [last])) == NewIn(d0, init + [last])
  {
    var all, kept := init + [last], Fresh(d0, init);
    assert all[..|init|] == init;
    if last.event.id in d0.events {
      assert kept + [] == kept;
    } else {
      assert (kept + [last])[..|kept|] == kept;
      OneMoreArrival(kept, last);
    }
  }

  /** The final counters are the distinct engagement ids on top of what was there before. */
  lemma CountsAreDistinctIds(d0: Db, arrivals: seq<Arrival>, j: JobId, m: MessageId)
    requires Agrees(d0) && UniqueMids(d0.jobs) && j in d0.jobs && d0.jobs[j].mid == Some(m)
    requires Coherent(NewIn(d0, arrivals))
    ensures var r := ArriveAll(d0, arrivals).jobs[j];
            && r.opens == d0.jobs[j].opens + |IdsOf(NewIn(d0, arrivals), m, Opened)|
            && r.clicks == d0.jobs[j].clicks + |IdsOf(NewIn(d0, arrivals), m, Clicked)|
  {
    RedeliveryIsInvisible(d0, arrivals);
    ArriveEach(d0, Fresh(d0, arrivals), j, m);
    var d, vs := ArriveAll(d0, arrivals), NewIn(d0, arrivals);
    assert JobAgrees(d, j) && JobAgrees(d0, j);
    AppliedOfReached(d0, d, vs, j, m, Opened);
    AppliedOfReached(d0, d, vs, j, m, Clicked);
  }

  lemma StoredKinds(d0: Db, d: Db, vs: set<Event>, m: MessageId, k: EventKind, e: EventId)
    requires Stored(d0, d, vs)
    ensures e in IdsOf(vs, m, k) <==> e in IdsFor(vs, m) && d.events[e].kind == k
  {
  }

  lemma AppliedOfReached(d0: Db, d: Db, vs: set<Event>, j: JobId, m: MessageId, k: EventKind)
    requires LogOk(d0) && Reached(d0, d, vs, j, m) && forall v :: v in vs ==> v.id !in d0.events
    ensures |AppliedOf(d, j, k)| == |AppliedOf(d0, j, k)| + |IdsOf(vs, m, k)|
  {
    var before, arrived := AppliedOf(d0, j, k), IdsOf(vs, m, k);
    forall e ensures e in AppliedOf(d, j, k) <==> e in before + arrived {
      OfKind(d, j, k, e);
      OfKind(d0, j, k, e);
      assert e in AppliedTo(d0, j) ==> d.events[e] == d0.events[e];
      StoredKinds(d0, d, vs, m, k, e);
    }
    assert AppliedOf(d, j, k) == before + arrived;
    ArrivedAreNew(d0, vs, j, m, k);
  }

  lemma OfKind(d: Db, j: JobId, k: EventKind, e: EventId)
    requires LogOk(d)
    ensures e in AppliedOf(d, j, k) <==> e in AppliedTo(d, j) && d.events[e].kind == k
  {
  }

  lemma ArrivedAreNew(d0: Db, vs: set<Event>, j: JobId, m: MessageId, k: EventKind)
    requires LogOk(d0) && forall v :: v in vs ==> v.id !in d0.events
    ensures AppliedOf(d0, j, k) !! IdsOf(vs, m, k)
  {
  }

  /** The final delivery status is the highest-ranked one among what was recorded and what arrived. */
  lemma DeliveryIsHighest(d0: Db, arrivals: seq<Arrival>, j: JobId, m: MessageId)
    requires Agrees(d0) && UniqueMids(d0.jobs) && j in d0.jobs && d0.jobs[j].mid == Some(m)
    requires Coherent(NewIn(d0, arrivals))
    ensures var s, vs := ArriveAll(d0, arrivals).jobs[j].delivery, NewIn(d0, arrivals);
            && DeliveryRank(d0.jobs[j].delivery) <= DeliveryRank(s)
            && (forall v :: v in vs && v.mid == m ==> DeliveryRank(Asserts(v.kind)) <= DeliveryRank(s))
            && (s == d0.jobs[j].delivery || exists v :: v in vs && v.mid == m && Asserts(v.kind) == s)
  {
    RedeliveryIsInvisible(d0, arrivals);
    ArriveEach(d0, Fresh(d0, arrivals), j, m);
    var d, vs := ArriveAll(d0, arrivals), NewIn(d0, arrivals);
    assert JobAgrees(d, j) && JobAgrees(d0, j);
    HighestOfUnion(d0, d, vs, j, m, d0.jobs[j].delivery, d.jobs[j].delivery);
  }

  lemma HighestOfUnion(d0: Db, d: Db, vs: set<Event>, j: JobId, m: MessageId, s0: Option<DeliveryStatus>,
        s: Option<DeliveryStatus>)
    requires LogOk(d0) && Reached(d0, d, vs, j, m)
    requires IsHighest(s0, AppliedTo(d0, j), d0.events) && IsHighest(s, AppliedTo(d, j), d.events)
    ensures DeliveryRank(s0) <= DeliveryRank(s)
    ensures forall v :: v in vs && v.mid == m ==> DeliveryRank(Asserts(v.kind)) <= DeliveryRank(s)
    ensures s == s0 || exists v :: v in vs && v.mid == m && Asserts(v.kind) == s
  {
    forall v | v in vs && v.mid == m ensures DeliveryRank(Asserts(v.kind)) <= DeliveryRank(s) {
      assert v.id in IdsFor(vs, m);
    }
    OldStaysBelow(d0, d, vs, j, m, s0, s);
    if s.Some? {
      var e :| e in AppliedTo(d, j) && Asserts(d.events[e].kind) == s;
      if e in AppliedTo(d0, j) {
        assert d.events[e] == d0.events[e];
      } else {
        var v :| v in vs && v.mid == m && v.id == e;
      }
    }
  }

  lemma OldStaysBelow(d0: Db, d: Db, vs: set<Event>, j: JobId, m: MessageId, s0: Option<DeliveryStatus>,
      s: Option<DeliveryStatus>)
    requires LogOk(d0) && Reached(d0, d, vs, j, m)
    requires IsHighest(s0, AppliedTo(d0, j), d0.events) && IsHighest(s, AppliedTo(d, j), d.events)
    ensures DeliveryRank(s0) <= DeliveryRank(s)
  {
    if s0.Some? {
      var e :| e in AppliedTo(d0, j) && Asserts(d0.events[e].kind) == s0;
      assert e in AppliedTo(d, j) && d.events[e] == d0.events[e];
    }
  }

  /** Duplicates, redeliveries and order are invisible: two stretches that bring the same new events show
      the same job. */
  lemma WebhooksConverge(d0: Db, one: seq<Arrival>, other: seq<Arrival>, j: JobId, m: MessageId)
    requires Agrees(d0) && UniqueMids(d0.jobs) && j in d0.jobs && d0.jobs[j].mid == Some(m)
    requires NewIn(d0, one) == NewIn(d0, other) && Coherent(NewIn(d0, one))
    ensures Show(ArriveAll(d0, one).jobs[j]) == Show(ArriveAll(d0, other).jobs[j])
  {
    CountsAreDistinctIds(d0, one, j, m);
    CountsAreDistinctIds(d0, other, j, m);
    RedeliveryIsInvisible(d0, one);
    RedeliveryIsInvisible(d0, other);
    ArriveEach(d0, Fresh(d0, one), j, m);
    ArriveEach(d0, Fresh(d0, other), j, m);
    var a, b := ArriveAll(d0, one), ArriveAll(d0, other);
    assert JobAgrees(a, j) && JobAgrees(b, j);
    forall e | e in AppliedTo(a, j) ensures a.events[e].kind == b.events[e].kind {
      if e !in AppliedTo(d0, j) {
        assert e in IdsFor(NewIn(d0, one), m);
      }
    }
    HighestIsUnique(a.jobs[j].delivery, b.jobs[j].delivery, AppliedTo(a, j), a.events, b.events);
  }

  // ---- any interleaving at all ----

  /** The stored events of a message, whatever has become of them. */
  ghost function StoredFor(d: Db, m: MessageId): set<EventId> {
    set e | e in d.events && d.events[e].mid == m
  }

  ghost function StoredOf(d: Db, m: MessageId, k: EventKind): set<EventId> {
    set e | e in d.events && d.events[e].mid == m && d.events[e].kind == k
  }

  /** Once every stored event of a message has been applied to its job, however insertion, processing
      and sweeping were interleaved, the job shows exactly those events. */
  lemma AppliedMessageShowsItsLog(d: Db, j: JobId, m: MessageId)
    requires Agrees(d) && j in d.jobs && AppliedTo(d, j) == StoredFor(d, m)
    ensures d.jobs[j].opens == |StoredOf(d, m, Opened)| && d.jobs[j].clicks == |StoredOf(d, m, Clicked)|
    ensures StoredFor(d, m) <= d.events.Keys && IsHighest(d.jobs[j].delivery, StoredFor(d, m), d.events)
  {
    assert JobAgrees(d, j);
    forall k ensures AppliedOf(d, j, k) == StoredOf(d, m, k) {
      assert forall e :: e in AppliedOf(d, j, k) <==> e in AppliedTo(d, j) && e in d.events && d.events[e].kind == k;
    }
  }

  /** Two such histories with the same stored events show the same. */
  lemma SameEventsShowTheSame(a: Db, b: Db, j: JobId, m: MessageId)
    requires Agrees(a) && Agrees(b) && j in a.jobs && j in b.jobs
    requires AppliedTo(a, j) == StoredFor(a, m) == StoredFor(b, m) == AppliedTo(b, j)
    requires forall e :: e in StoredFor(a, m) ==> a.events[e].kind == b.events[e].kind
    ensures Show(a.jobs[j]) == Show(b.jobs[j])
  {
    AppliedMessageShowsItsLog(a, j, m);
    AppliedMessageShowsItsLog(b, j, m);
    forall k ensures StoredOf(a, m, k) == StoredOf(b, m, k) {
      assert forall e :: e in StoredOf(a, m, k) <==> e in StoredFor(a, m) && a.events[e].kind == k;
      assert forall e :: e in StoredOf(b, m, k) <==> e in StoredFor(b, m) && b.events[e].kind == k;
    }
    HighestIsUnique(a.jobs[j].delivery, b.jobs[j].delivery, StoredFor(a, m), a.events, b.events);
  }
}
