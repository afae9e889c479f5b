/** packages/shared/providers/fake.py: the idempotency cache, send(), and the webhooks it emits. */
module FakeProvider {
  import opened Prelude
  import opened Transitions
  import opened Models

  /** What the first sender of a key stored: the message id and the time of acceptance. */
  datatype Entry = Entry(mid: MessageId, at: real)

  /** The failure draw of one attempt. */
  datatype Verdict = Accept | Invalid | RateLimited | Unavailable

  datatype SendResult =
    | Response(mid: MessageId, at: real, replay: bool)
    | TransientProviderError
    | PermanentProviderError

  /** The provider as a value. It outlives every worker. */
  datatype Provider = Provider(
    cache: map<JobId, Entry>,
    attempts: map<JobId, nat>,
    sendCalls: nat,
    providerSends: nat,
    replays: nat)

  const EMPTY_PROVIDER := Provider(map[], map[], 0, 0, 0)

  /** Entering send() and consulting the cache: a hit answers at once, a miss opens a fresh trial. */
  function Look(p: Provider, key: JobId): Provider {
    if key in p.cache then p.(sendCalls := p.sendCalls + 1, replays := p.replays + 1)
    else p.(sendCalls := p.sendCalls + 1,
            attempts := p.attempts[key := (if key in p.attempts then p.attempts[key] else 0) + 1])
  }

  /** Put-if-absent, and what the caller does with the answer. */
  function Put(p: Provider, key: JobId, at: real): Provider {
    if key in p.cache then p.(replays := p.replays + 1)
    else p.(cache := p.cache[key := Entry(Msg(key), at)], providerSends := p.providerSends + 1)
  }

  function DuplicateSends(p: Provider): nat {
    if p.providerSends > |p.cache| then p.providerSends - |p.cache| else 0
  }

  class FakeEmailProvider {
    var cache: map<JobId, Entry>
    var attempts: map<JobId, nat>
    var sendCalls: nat
    var providerSends: nat
    var replays: nat

    constructor ()
      ensures View() == EMPTY_PROVIDER
    {
      cache, attempts, sendCalls, providerSends, replays := map[], map[], 0, 0, 0;
    }

    ghost function View(): Provider
      reads this
    {
      Provider(cache, attempts, sendCalls, providerSends, replays)
    }

    method CacheGet(key: JobId) returns (r: Option<Entry>)
      ensures r == if key in cache then Some(cache[key]) else None
    {
      return if key in cache then Some(cache[key]) else None;
    }

    /** True exactly when this call created the entry. */
    method CachePut(key: JobId, mid: MessageId, at: real) returns (created: bool)
      modifies this`cache
      ensures created <==> key !in old(cache)
      ensures cache == if created then old(cache)[key := Entry(mid, at)] else old(cache)
    {
      if key in cache {
        return false;
      }
      cache := cache[key := Entry(mid, at)];
      return true;
    }

    /** The await on the simulated latency: meanwhile another sender of the key may get through. */
    method Latency(key: JobId, rival: Option<real>)
      requires key !in cache
      modifies this`cache, this`providerSends
      ensures cache == if rival.Some? then old(cache)[key := Entry(Msg(key), rival.value)] else old(cache)
      ensures providerSends == if rival.Some? then old(providerSends) + 1 else old(providerSends)
    {
      if rival.Some? {
        var _ := CachePut(key, Msg(key), rival.value);
        providerSends := providerSends + 1;
      }
    }

    /** A used key gets its first answer back whatever the draw; so does a sender overtaken during
        the latency; only a first acceptance adds a message; a refusal adds nothing. */
    method Send(key: JobId, verdict: Verdict, now: real, rival: Option<real>) returns (r: SendResult)
      modifies this
      ensures key in old(cache) ==>
                r == Response(old(cache)[key].mid, old(cache)[key].at, true) && View() == Look(old(View()), key)
      ensures key !in old(cache) && verdict.Accept? && rival.None? ==>
                r == Response(Msg(key), now, false) && View() == Put(Look(old(View()), key), key, now)
      ensures key !in old(cache) && verdict.Accept? && rival.Some? ==>
                r == Response(Msg(key), rival.value, true) &&
                View() == Put(Put(Look(old(View()), key), key, rival.value), key, now)
      ensures key !in old(cache) && !verdict.Accept? ==>
                r == (if verdict.Invalid? then PermanentProviderError else TransientProviderError) &&
                View() == if rival.Some? then Put(Look(old(View()), key), key, rival.value) else Look(old(View()), key)
      ensures r.Response? ==> key in cache && Entry(r.mid, r.at) == cache[key]
      ensures providerSends - |cache| == old(providerSends) - |old(cache)|
      // the counters, case by case
      ensures sendCalls == old(sendCalls) + 1
      ensures key in old(cache) ==>
                cache == old(cache) && attempts == old(attempts) && providerSends == old(providerSends)
                && replays == old(replays) + 1
      ensures key !in old(cache) ==>
                && attempts == old(attempts)[key := if key in old(attempts) then old(attempts)[key] + 1 else 1]
                && replays == old(replays) + (if verdict.Accept? && rival.Some? then 1 else 0)
                && providerSends == old(providerSends) + (if verdict.Accept? || rival.Some? then 1 else 0)
                && cache == (if rival.Some? then old(cache)[key := Entry(Msg(key), rival.value)]
                             else if verdict.Accept? then old(cache)[key := Entry(Msg(key), now)] else old(cache))
    {
      sendCalls := sendCalls + 1;
      var cached := CacheGet(key);
      if cached.Some? {
        replays := replays + 1;
        return Response(cached.value.mid, cached.value.at, true);
      }
      attempts := attempts[key := (if key in attempts then attempts[key] else 0) + 1];
      Latency(key, rival);
      match verdict {
        case Invalid => return PermanentProviderError;
        case RateLimited => return TransientProviderError;
        case Unavailable => return TransientProviderError;
        case Accept =>
      }
      var mid := Msg(key);
      var created := CachePut(key, mid, now);
      if !created {
        var existing := CacheGet(key);
        replays := replays + 1;
        return Response(existing.value.mid, existing.value.at, true);
      }
      providerSends := providerSends + 1;
      return Response(mid, now, false);
    }
  }

  // ---- the webhooks of one accepted message ----

  /** What becomes of a message; a click presupposes an open. */
  datatype Fate = HardBounce | SoftBounce | Arrives(opens: bool, clicks: bool, complains: bool)

  function Story(fate: Fate): seq<EventKind> {
    match fate
    case HardBounce => [EvBounced]
    case SoftBounce => [EvDeferred, EvDelivered]
    case Arrives(o, c, x) =>
      [EvDelivered] + (if o then [Opened] else []) + (if o && c then [Clicked] else [])
        + (if x then [EvComplained] else [])
  }

  /** The verdict a reader of the dashboard should end up with. */
  function FinalStatus(fate: Fate): DeliveryStatus {
    match fate
    case HardBounce => DeliveryStatus.Bounced
    case SoftBounce => DeliveryStatus.Delivered
    case Arrives(_, _, x) => if x then DeliveryStatus.Complained else DeliveryStatus.Delivered
  }

  /** The event of this kind; when[k] is the time the simulation drew for it. */
  function EventFor(m: MessageId, k: EventKind, when: EventKind -> real): Event {
    Event(Evt(m, k, when(k)), m, k, when(k))
  }

  ghost function StoryEvents(m: MessageId, kinds: seq<EventKind>, when: EventKind -> real): set<Event> {
    set i | 0 <= i < |kinds| :: EventFor(m, kinds[i], when)
  }

  /** Every way a message can go, with what its webhooks say, in order, and how it should show. */
  lemma StoryByCases(opens: bool, clicks: bool, complains: bool)
    ensures Story(HardBounce) == [EvBounced] && FinalStatus(HardBounce).Bounced?
    ensures Story(SoftBounce) == [EvDeferred, EvDelivered] && FinalStatus(SoftBounce).Delivered?
    ensures Story(Arrives(false, clicks, false)) == [EvDelivered]
    ensures Story(Arrives(false, clicks, true)) == [EvDelivered, EvComplained]
    ensures Story(Arrives(true, false, false)) == [EvDelivered, Opened]
    ensures Story(Arrives(true, false, true)) == [EvDelivered, Opened, EvComplained]
    ensures Story(Arrives(true, true, false)) == [EvDelivered, Opened, Clicked]
    ensures Story(Arrives(true, true, true)) == [EvDelivered, Opened, Clicked, EvComplained]
    ensures FinalStatus(Arrives(opens, clicks, true)).Complained?
    ensures FinalStatus(Arrives(opens, clicks, false)).Delivered?
  {
  }

  /** The event list of _deliver_outcome before any reordering. */
  method Compose(fate: Fate, skipSent: bool) returns (kinds: seq<EventKind>)
    ensures kinds == (if skipSent then [] else [EvSent]) + Story(fate)
  {
    kinds := [];
    if !skipSent {
      kinds := kinds + [EvSent];
    }
    if fate.HardBounce? {
      kinds := kinds + [EvBounced];
    } else if fate.SoftBounce? {
      kinds := kinds + [EvDeferred, EvDelivered];
    } else {
      kinds := kinds + [EvDelivered];
      if fate.opens {
        kinds := kinds + [Opened];
        if fate.clicks {
          kinds := kinds + [Clicked];
        }
      }
      if fate.complains {
        kinds := kinds + [EvComplained];
      }
    }
  }

  /** _deliver_outcome: perhaps swap two neighbours, then emit each event once or twice. */
  method DeliverOutcome(m: MessageId, fate: Fate, when: EventKind -> real, skipSent: bool, swapAt: Option<nat>,
        twice: EventKind -> bool)
    returns (emitted: seq<Event>)
    ensures (set v | v in emitted) == StoryEvents(m, (if skipSent then [] else [EvSent]) + Story(fate), when)
  {
    var kinds := Compose(fate, skipSent);
    if swapAt.Some? && |kinds| > 1 && swapAt.value < |kinds| - 1 {
      var i := swapAt.value;
      SwapKeepsEvents(m, kinds, when, i);
      kinds := kinds[i := kinds[i + 1]][i + 1 := kinds[i]];
    }
    emitted := EmitAll(m, kinds, when, twice);
  }

  method EmitAll(m: MessageId, kinds: seq<EventKind>, when: EventKind -> real, twice: EventKind -> bool)
    returns (emitted: seq<Event>)
    ensures (set v | v in emitted) == StoryEvents(m, kinds, when)
  {
    emitted := [];
    for n := 0 to |kinds|
      invariant (set v | v in emitted) == StoryEvents(m, kinds[..n], when)
    {
      var v := EventFor(m, kinds[n], when);
      assert kinds[..n + 1] == kinds[..n] + [kinds[n]];
      OneMoreEvent(m, kinds[..n], kinds[n], when);
      emitted := emitted + [v];
      if twice(kinds[n]) {
        emitted := emitted + [v];
      }
    }
    assert kinds[..|kinds|] == kinds;
  }

  lemma SwapKeepsEvents(m: MessageId, kinds: seq<EventKind>, when: EventKind -> real, i: nat)
    requires i + 1 < |kinds|
    ensures StoryEvents(m, kinds[i := kinds[i + 1]][i + 1 := kinds[i]], when) == StoryEvents(m, kinds, when)
  {
    var swapped := kinds[i := kinds[i + 1]][i + 1 := kinds[i]];
    forall v ensures v in StoryEvents(m, swapped, when) <==> v in StoryEvents(m, kinds, when) {
      if v in StoryEvents(m, swapped, when) {
        var n :| 0 <= n < |swapped| && v == EventFor(m, swapped[n], when);
        assert v == EventFor(m, kinds[if n == i then i + 1 else if n == i + 1 then i else n], when);
      }
      if v in StoryEvents(m, kinds, when) {
        var n :| 0 <= n < |kinds| && v == EventFor(m, kinds[n], when);
        assert v == EventFor(m, swapped[if n == i then i + 1 else if n == i + 1 then i else n], when);
      }
    }
  }

  lemma OneMoreEvent(m: MessageId, kinds: seq<EventKind>, k: EventKind, when: EventKind -> real)
    ensures StoryEvents(m, kinds + [k], when) == StoryEvents(m, kinds, when) + {EventFor(m, k, when)}
  {
    var more := kinds + [k];
    forall v | v in StoryEvents(m, kinds, when) ensures v in StoryEvents(m, more, when) {
      var n :| 0 <= n < |kinds| && v == EventFor(m, kinds[n], when);
      assert v == EventFor(m, more[n], when);
    }
    assert EventFor(m, more[|kinds|], when) in StoryEvents(m, more, when);
  }
}
