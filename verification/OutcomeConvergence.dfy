/** The simulated webhooks of packages/shared/providers/fake.py meet the processor. */
module OutcomeConvergence {
  import opened Prelude
  import opened Transitions
  import opened Models
  import opened JobStore
  import opened Webhooks
  import opened Convergence
  import opened FakeProvider
  import opened SendMachine
  import opened SendSafety

  /** Event ids are hashes of what the event says, in the webhooks and so in the table. */
  ghost predicate ByContent(v: Event) {
    v.id == Evt(v.mid, v.kind, v.occurredAt)
  }

  ghost predicate RowsByContent(d: Db) {
    forall e :: e in d.events ==> d.events[e].mid == e.mid && d.events[e].kind == e.kind
  }

  /** The ids of the events of one message's story. */
  ghost function StoryIds(m: MessageId, kinds: seq<EventKind>, when: EventKind -> real): set<EventId> {
    set i | 0 <= i < |kinds| :: Evt(m, kinds[i], when(kinds[i]))
  }

  /** The ids of the webhooks of one message in a stretch that may hold those of others too. */
  ghost function ArrivedFor(arrivals: seq<Arrival>, m: MessageId): set<EventId> {
    set i | 0 <= i < |arrivals| && arrivals[i].event.mid == m :: arrivals[i].event.id
  }

  /** Job j is that of message m, and what has been applied to it are stored events of m, not always all. */
  ghost predicate Follows(d: Db, j: JobId, m: MessageId) {
    && Agrees(d) && UniqueMids(d.jobs) && HasMid(d.jobs, j, m) && RowsByContent(d)
    && AppliedTo(d, j) <= StoredFor(d, m)
  }

  /** The stored events of m that have not been applied: still waiting, or adopted by the record. */
  ghost function Missed(d: Db, j: JobId, m: MessageId): set<EventId> {
    StoredFor(d, m) - AppliedTo(d, j)
  }

  lemma NothingMissed(stored: set<EventId>, applied: set<EventId>, more: set<EventId>)
    requires applied <= stored && more !! stored
    ensures applied + more <= stored + more && (stored + more) - (applied + more) == stored - applied
  {
  }

  lemma ArriveKeepsFollowing(d: Db, v: Event, at: real, j: JobId, m: MessageId)
    requires Follows(d, j, m) && ByContent(v)
    ensures Follows(Arrive(d, v, at), j, m) && Missed(Arrive(d, v, at), j, m) == Missed(d, j, m)
    ensures StoredFor(Arrive(d, v, at), m) == StoredFor(d, m) + if v.mid == m then {v.id} else {}
  {
    if v.id !in d.events {
      ArriveKeepsAgreement(d, v, at);
      NewlyApplied(d, v, at, j, m);
      ArriveStores(d, v, at, m);
      assert v.id !in StoredFor(d, m);
      NothingMissed(StoredFor(d, m), AppliedTo(d, j), if v.mid == m then {v.id} else {});
    }
  }

  lemma ArriveStores(d: Db, v: Event, at: real, m: MessageId)
    requires v.id !in d.events && RowsByContent(d) && ByContent(v)
    ensures RowsByContent(Arrive(d, v, at))
    ensures StoredFor(Arrive(d, v, at), m) == StoredFor(d, m) + if v.mid == m then {v.id} else {}
  {
    var d1 := InsertEvent(d, v, at);
    ProcessKeepsRows(d1, v.id, at);
  }

  lemma ProcessKeepsRows(d: Db, e: EventId, now: real)
    ensures var d' := ProcessEvent(d, e, now).0;
            && d'.events.Keys == d.events.Keys
            && forall f :: f in d.events ==>
                  d'.events[f].mid == d.events[f].mid && d'.events[f].kind == d.events[f].kind
  {
  }

  lemma OneMoreFor(init: seq<Arrival>, last: Arrival, m: MessageId)
    ensures ArrivedFor(init + [last], m) == ArrivedFor(init, m) + if last.event.mid == m then {last.event.id} else {}
  {
    var all := init + [last];
    assert all[|init|] == last && forall i :: 0 <= i < |init| ==> all[i] == init[i];
  }

  lemma OneMoreFollows(d: Db, d1: Db, init: seq<Arrival>, last: Arrival, j: JobId, m: MessageId)
    requires Follows(d1, j, m) && ByContent(last.event)
    requires StoredFor(d1, m) == StoredFor(d, m) + ArrivedFor(init, m)
    ensures Follows(Arrive(d1, last.event, last.at), j, m)
    ensures Missed(Arrive(d1, last.event, last.at), j, m) == Missed(d1, j, m)
    ensures StoredFor(Arrive(d1, last.event, last.at), m) == StoredFor(d, m) + ArrivedFor(init + [last], m)
  {
    ArriveKeepsFollowing(d1, last.event, last.at, j, m);
    OneMoreFor(init, last, m);
    StoredGrows(StoredFor(d, m), ArrivedFor(init, m), if last.event.mid == m then {last.event.id} else {});
  }

  ghost predicate AllByContent(arrivals: seq<Arrival>) {
    forall i :: 0 <= i < |arrivals| ==> ByContent(arrivals[i].event)
  }

  lemma {:induction false} ArrivalsFollow(d: Db, arrivals: seq<Arrival>, j: JobId, m: MessageId)
    requires Follows(d, j, m) && AllByContent(arrivals)
    ensures Follows(ArriveAll(d, arrivals), j, m) && Missed(ArriveAll(d, arrivals), j, m) == Missed(d, j, m)
    ensures StoredFor(ArriveAll(d, arrivals), m) == StoredFor(d, m) + ArrivedFor(arrivals, m)
  {
    if arrivals == [] {
      assert ArrivedFor(arrivals, m) == {};
    } else {
      var init, last := arrivals[..|arrivals| - 1], arrivals[|arrivals| - 1];
      ArrivalsFollow(d, init, j, m);
      OneMoreFollows(d, ArriveAll(d, init), init, last, j, m);
      assert init + [last] == arrivals;
    }
  }

  lemma StoredGrows(stored: set<EventId>, arrived: set<EventId>, more: set<EventId>)
    ensures (stored + arrived) + more == stored + (arrived + more)
  {
  }

  // ---- what a fate dictates ----

  /** The recipient does this. */
  predicate Engages(fate: Fate, k: EventKind) {
    fate.Arrives? && fate.opens && (k == Opened || (k == Clicked && fate.clicks))
  }

  /** What the job should show in the end. */
  ghost function Dictated(fate: Fate): Shown {
    Shown(Some(FinalStatus(fate)), if Engages(fate, Opened) then 1 else 0, if Engages(fate, Clicked) then 1 else 0)
  }

  /** All of the story has been stored, and of the message nothing else but perhaps `sent`, which
      send() emits ahead of the story or _deliver_outcome as its first event. */
  ghost predicate IsStory(ids: set<EventId>, m: MessageId, fate: Fate, when: EventKind -> real) {
    StoryIds(m, Story(fate), when) <= ids <= StoryIds(m, [EvSent] + Story(fate), when)
  }

  /** Events whose loss can be seen: engagements, and the one that carries the verdict. */
  predicate Telling(k: EventKind, fate: Fate) {
    IsEngagement(k) || Asserts(k) == Some(FinalStatus(fate))
  }

  lemma StoryKinds(fate: Fate, k: EventKind)
    ensures IsEngagement(k) ==> (k in Story(fate) <==> Engages(fate, k))
    ensures k in Story(fate) ==> k != EvSent && DeliveryRank(Asserts(k)) <= DeliveryRank(Some(FinalStatus(fate)))
  {
  }

  function VerdictOf(fate: Fate): EventKind {
    match fate
    case HardBounce => EvBounced
    case SoftBounce => EvDelivered
    case Arrives(_, _, complains) => if complains then EvComplained else EvDelivered
  }

  lemma VerdictInStory(fate: Fate)
    ensures VerdictOf(fate) in Story(fate)
    ensures forall k :: Asserts(k) == Some(FinalStatus(fate)) <==> k == VerdictOf(fate)
  {
    var story := Story(fate);
    match fate
    case HardBounce => assert story[0] == EvBounced;
    case SoftBounce => assert story[1] == EvDelivered;
    case Arrives(_, _, complains) => assert story[if complains then |story| - 1 else 0] == VerdictOf(fate);
  }

  lemma InStory(m: MessageId, kinds: seq<EventKind>, when: EventKind -> real, k: EventKind)
    ensures Evt(m, k, when(k)) in StoryIds(m, kinds, when) <==> k in kinds
  {
    if k in kinds {
      var i :| 0 <= i < |kinds| && kinds[i] == k;
      assert Evt(m, kinds[i], when(kinds[i])) in StoryIds(m, kinds, when);
    }
  }

  /** The stored events of m, kind by kind. */
  lemma StoryOf(ids: set<EventId>, m: MessageId, fate: Fate, when: EventKind -> real, e: EventId)
    requires IsStory(ids, m, fate, when)
    ensures e in ids ==> e == Evt(m, e.kind, when(e.kind)) && (e.kind == EvSent || e.kind in Story(fate))
    ensures e == Evt(m, e.kind, when(e.kind)) && e.kind in Story(fate) ==> e in ids
  {
    InStory(m, Story(fate), when, e.kind);
    if e in ids {
      assert e in StoryIds(m, [EvSent] + Story(fate), when);
    }
  }

  /** Each engagement of the story is counted once if it was applied, and not at all otherwise. */
  lemma CountsOfStory(d: Db, j: JobId, m: MessageId, fate: Fate, when: EventKind -> real, k: EventKind)
    requires Follows(d, j, m) && IsStory(StoredFor(d, m), m, fate, when) && IsEngagement(k)
    ensures |AppliedOf(d, j, k)| == if Engages(fate, k) && Evt(m, k, when(k)) !in Missed(d, j, m) then 1 else 0
    ensures Evt(m, k, when(k)) in Missed(d, j, m) ==> Engages(fate, k)
  {
    var one := Evt(m, k, when(k));
    StoryKinds(fate, k);
    forall e ensures e in AppliedOf(d, j, k) <==> e == one && e in AppliedTo(d, j) {
      StoryOf(StoredFor(d, m), m, fate, when, e);
      assert e in AppliedTo(d, j) ==> e in StoredFor(d, m) && d.events[e].kind == e.kind;
    }
    StoryOf(StoredFor(d, m), m, fate, when, one);
    assert AppliedOf(d, j, k) == if one in AppliedTo(d, j) then {one} else {};
  }

  /** Every applied event is one of the story. */
  lemma AppliedInStory(d: Db, j: JobId, m: MessageId, fate: Fate, when: EventKind -> real, e: EventId)
    requires Follows(d, j, m) && IsStory(StoredFor(d, m), m, fate, when) && e in AppliedTo(d, j)
    ensures e in d.events && d.events[e].kind == e.kind && e == Evt(m, e.kind, when(e.kind))
    ensures DeliveryRank(Asserts(e.kind)) <= DeliveryRank(Some(FinalStatus(fate)))
  {
    assert e in StoredFor(d, m);
    StoryOf(StoredFor(d, m), m, fate, when, e);
    StoryKinds(fate, e.kind);
  }

  lemma HighestIsTop(s: Option<DeliveryStatus>, ids: set<EventId>, events: map<EventId, EventRow>, e: EventId,
        top: DeliveryStatus)
    requires ids <= events.Keys && IsHighest(s, ids, events) && e in ids && Asserts(events[e].kind) == Some(top)
    requires forall f :: f in ids ==> DeliveryRank(Asserts(events[f].kind)) <= DeliveryRank(Some(top))
    ensures s == Some(top)
  {
  }

  lemma VerdictShown(d: Db, j: JobId, m: MessageId, fate: Fate, when: EventKind -> real, top: EventId)
    requires Follows(d, j, m) && IsStory(StoredFor(d, m), m, fate, when)
    requires top.kind == VerdictOf(fate) && top in AppliedTo(d, j)
    ensures d.jobs[j].delivery == Some(FinalStatus(fate))
  {
    assert JobAgrees(d, j);
    VerdictInStory(fate);
    forall e | e in AppliedTo(d, j)
      ensures e in d.events && d.events[e].kind == e.kind
      ensures DeliveryRank(Asserts(e.kind)) <= DeliveryRank(Some(FinalStatus(fate)))
    {
      AppliedInStory(d, j, m, fate, when, e);
    }
    HighestIsTop(d.jobs[j].delivery, AppliedTo(d, j), d.events, top, FinalStatus(fate));
  }

  lemma ShownVerdict(d: Db, j: JobId, m: MessageId, fate: Fate, when: EventKind -> real)
    requires Follows(d, j, m) && IsStory(StoredFor(d, m), m, fate, when)
    requires d.jobs[j].delivery == Some(FinalStatus(fate))
    ensures Evt(m, VerdictOf(fate), when(VerdictOf(fate))) in AppliedTo(d, j)
  {
    assert JobAgrees(d, j);
    VerdictInStory(fate);
    var e :| e in AppliedTo(d, j) && Asserts(d.events[e].kind) == Some(FinalStatus(fate));
    AppliedInStory(d, j, m, fate, when, e);
  }

  /** The delivery status is the verdict exactly if the event that carries it was applied. */
  lemma StatusOfStory(d: Db, j: JobId, m: MessageId, fate: Fate, when: EventKind -> real)
    requires Follows(d, j, m) && IsStory(StoredFor(d, m), m, fate, when)
    ensures var verdict := VerdictOf(fate);
            d.jobs[j].delivery == Some(FinalStatus(fate)) <==> Evt(m, verdict, when(verdict)) !in Missed(d, j, m)
  {
    var top := Evt(m, VerdictOf(fate), when(VerdictOf(fate)));
    VerdictInStory(fate);
    StoryOf(StoredFor(d, m), m, fate, when, top);
    if top in AppliedTo(d, j) {
      VerdictShown(d, j, m, fate, when, top);
    } else if d.jobs[j].delivery == Some(FinalStatus(fate)) {
      ShownVerdict(d, j, m, fate, when);
    }
  }

  /** Only three events of a story can be telling. */
  lemma TellingMissed(d: Db, j: JobId, m: MessageId, fate: Fate, when: EventKind -> real)
    requires Follows(d, j, m) && IsStory(StoredFor(d, m), m, fate, when)
    ensures (forall e :: e in Missed(d, j, m) ==> !Telling(e.kind, fate)) <==>
            forall k :: k in {Opened, Clicked, VerdictOf(fate)} ==> Evt(m, k, when(k)) !in Missed(d, j, m)
  {
    VerdictInStory(fate);
    forall e | e in Missed(d, j, m) ensures e == Evt(m, e.kind, when(e.kind)) {
      StoryOf(StoredFor(d, m), m, fate, when, e);
    }
    assert forall k :: Telling(k, fate) <==> k in {Opened, Clicked, VerdictOf(fate)};
  }

  /** Whatever happened before, in whatever order: once the whole story is stored, the job shows what the
      fate dictates, each engagement counted once, if and only if none of the events that were never
      applied is a telling one. */
  lemma FateShownIff(d: Db, j: JobId, m: MessageId, fate: Fate, when: EventKind -> real)
    requires Follows(d, j, m) && IsStory(StoredFor(d, m), m, fate, when)
    ensures Show(d.jobs[j]) == Dictated(fate) <==> forall e :: e in Missed(d, j, m) ==> !Telling(e.kind, fate)
  {
    assert JobAgrees(d, j);
    CountsOfStory(d, j, m, fate, when, Opened);
    CountsOfStory(d, j, m, fate, when, Clicked);
    StatusOfStory(d, j, m, fate, when);
    TellingMissed(d, j, m, fate, when);
    assert VerdictOf(fate) in {Opened, Clicked, VerdictOf(fate)};
  }

  /** However the webhooks of one message are swapped, repeated, redelivered and mixed with those of other
      messages, and whatever had arrived before: once all have arrived the job shows what its fate
      dictates if and only if no telling event had been left unapplied when the stretch began. */
  lemma FateDecidesIff(d0: Db, arrivals: seq<Arrival>, j: JobId, m: MessageId, fate: Fate, when: EventKind -> real)
    requires Follows(d0, j, m) && AllByContent(arrivals)
    requires IsStory(StoredFor(d0, m) + ArrivedFor(arrivals, m), m, fate, when)
    ensures Show(ArriveAll(d0, arrivals).jobs[j]) == Dictated(fate) <==>
            forall e :: e in Missed(d0, j, m) ==> !Telling(e.kind, fate)
  {
    ArrivalsFollow(d0, arrivals, j, m);
    FateShownIff(ArriveAll(d0, arrivals), j, m, fate, when);
  }

  /** In particular an early `sent`, emitted before send() returned, adopted by the record and never
      applied, changes nothing: it asserts no status. */
  lemma FateDecides(d0: Db, arrivals: seq<Arrival>, j: JobId, m: MessageId, fate: Fate, when: EventKind -> real)
    requires Follows(d0, j, m) && AllByContent(arrivals)
    requires IsStory(StoredFor(d0, m) + ArrivedFor(arrivals, m), m, fate, when)
    requires forall e :: e in Missed(d0, j, m) ==> e.kind == EvSent
    ensures Show(ArriveAll(d0, arrivals).jobs[j]) == Dictated(fate)
  {
    FateDecidesIff(d0, arrivals, j, m, fate, when);
  }

  /** What _deliver_outcome emits are webhooks with the ids of the story, all of them and no others. */
  lemma EmittedAreTheStory(m: MessageId, kinds: seq<EventKind>, when: EventKind -> real, emitted: seq<Event>)
    requires (set v | v in emitted) == StoryEvents(m, kinds, when)
    ensures forall v :: v in emitted ==> ByContent(v) && v.mid == m
    ensures (set v | v in emitted :: v.id) == StoryIds(m, kinds, when)
  {
    forall v | v in emitted ensures ByContent(v) && v.mid == m && v.id in StoryIds(m, kinds, when) {
      assert v in StoryEvents(m, kinds, when);
    }
    forall i | 0 <= i < |kinds| ensures Evt(m, kinds[i], when(kinds[i])) in (set v | v in emitted :: v.id) {
      var v := EventFor(m, kinds[i], when);
      assert v in StoryEvents(m, kinds, when) && v in (set w | w in emitted);
    }
  }

  // ---- in every state that can be reached ----

  /** What has been applied to a job are events of its own message. */
  ghost predicate AppliedToOwner(d: Db) {
    forall e :: e in d.applied && e in d.events ==>
        d.applied[e] in d.jobs && d.jobs[d.applied[e]].mid == Some(d.events[e].mid)
  }

  lemma RecordKeepsOwners(d: Db, j: JobId, m: MessageId, at: real)
    requires AppliedToOwner(d) && (j in d.jobs && d.jobs[j].status == SendStatus.Sending ==> d.jobs[j].mid.None?)
    ensures AppliedToOwner(MarkSent(d, j, m, at))
  {
  }

  lemma RowsKeepOwners(g: Granularity, d: Db, j: JobId)
    requires AppliedToOwner(d)
    ensures AppliedToOwner(Session(g, d, j)) && AppliedToOwner(WithRow(d, j, ClaimRow))
    ensures AppliedToOwner(WithRow(d, j, MarkTransientRow)) && AppliedToOwner(WithRow(d, j, MarkPermanentRow))
  {
  }

  lemma ResultKeepsOwners(g: Granularity, d: Db, j: JobId, d': Db)
    requires StepResult(g, d, j, d') && AppliedToOwner(d)
    requires j in d.jobs ==> (d.jobs[j].mid.Some? <==> d.jobs[j].status == SendStatus.Sent)
    ensures AppliedToOwner(d')
  {
    var mine := Session(g, d, j);
    RowsKeepOwners(g, d, j);
    RowsKeepOwners(g, mine, j);
    if m, at :| d' == MarkSent(mine, j, m, at) {
      RecordKeepsOwners(mine, j, m, at);
    }
  }

  lemma ProcessKeepsOwners(d: Db, e: EventId, now: real)
    requires AppliedToOwner(d)
    ensures AppliedToOwner(ProcessEvent(d, e, now).0) && AppliedToOwner(SweepOne(d, e, now).0)
  {
    ProcessKeepsIdentity(d, e, now);
  }

  lemma StepKeepsOwners(g: Granularity, s: State, i: nat, v: Verdict)
    requires Core(g, s) && AppliedToOwner(s.db) && i < |s.execs|
    ensures AppliedToOwner(DoStep(g, s, i, v).db)
  {
    var j := s.execs[i].job;
    StepDb(g, s, i, v);
    assert j in s.db.jobs ==> JobOk(g, s, j);
    ResultKeepsOwners(g, s.db, j, DoStep(g, s, i, v).db);
  }

  lemma AbortKeepsOwners(g: Granularity, s: State, i: nat, error: string)
    requires AppliedToOwner(s.db)
    ensures AppliedToOwner(DoAbort(g, s, i, error).db)
  {
    if i < |s.execs| {
      RowsKeepOwners(g, s.db, s.execs[i].job);
    }
  }

  lemma TablesKeepOwners(g: Granularity, s: State, a: Action)
    requires AppliedToOwner(s.db) && LogOk(s.db) && (a.InsertJob? || a.CancelJob? || a.Ingest?)
    ensures AppliedToOwner(Next(g, s, a).db)
  {
  }

  lemma NextKeepsOwners(g: Granularity, s: State, a: Action)
    requires Core(g, s) && AppliedToOwner(s.db) && LogOk(s.db)
    ensures AppliedToOwner(Next(g, s, a).db)
  {
    match a
    case Step(i, v) => if i < |s.execs| { StepKeepsOwners(g, s, i, v); }
    case Abort(i, error) => AbortKeepsOwners(g, s, i, error);
    case Process(e) => ProcessKeepsOwners(s.db, e, s.now);
    case Sweep(e) => ProcessKeepsOwners(s.db, e, s.now);
    case Tick(_) =>
    case Start(_) =>
    case Timeout(_, _) =>
    case Crash(_) =>
    case _ => TablesKeepOwners(g, s, a);
  }

  lemma {:induction false} RunKeepsOwners(g: Granularity, now: real, acts: seq<Action>)
    ensures AppliedToOwner(Run(g, Init(now), acts).db)
  {
    if acts != [] {
      var s := Run(g, Init(now), acts[..|acts| - 1]);
      RunKeepsOwners(g, now, acts[..|acts| - 1]);
      assert Reachable(g, s);
      ReachableInv(g, s);
      NextKeepsOwners(g, s, acts[|acts| - 1]);
    }
  }

  /** In every reachable state, whoever ingested, processed, swept, recorded and crashed: a job whose
      message's story is stored shows what the fate dictates if and only if nothing telling was missed. */
  lemma FateShownInEveryState(g: Granularity, s: State, j: JobId, m: MessageId, fate: Fate, when: EventKind -> real)
    requires Reachable(g, s) && HasMid(s.db.jobs, j, m) && RowsByContent(s.db)
    requires IsStory(StoredFor(s.db, m), m, fate, when)
    ensures Follows(s.db, j, m)
    ensures Show(s.db.jobs[j]) == Dictated(fate) <==> forall e :: e in Missed(s.db, j, m) ==> !Telling(e.kind, fate)
  {
    ReachableInv(g, s);
    var now, acts :| s == Run(g, Init(now), acts);
    RunKeepsOwners(g, now, acts);
    assert AppliedTo(s.db, j) <= StoredFor(s.db, m);
    FateShownIff(s.db, j, m, fate, when);
  }
}
