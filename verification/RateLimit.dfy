/** packages/shared/rate_limit.py: the token bucket, in its in-process and its expiring Redis form.
    Tokens and seconds are reals. */
module RateLimit {
  import opened Prelude

  datatype Bucket = Bucket(tokens: real, updatedAt: real)

  datatype Limits = Limits(capacity: real, refill: real)

  datatype Call = Call(now: real, tokens: real)

  datatype Verdict = Verdict(allowed: bool, remaining: real)

  function Max(a: real, b: real): real {
    if a >= b then a else b
  }

  function Min(a: real, b: real): real {
    if a <= b then a else b
  }

  /** The tokens that dt seconds bring. */
  function Earned(l: Limits, dt: real): real {
    dt * l.refill
  }

  /** What t tokens have grown to after dt seconds. */
  function Grow(l: Limits, t: real, dt: real): real {
    Min(l.capacity, t + Earned(l, dt))
  }

  /** The tokens a bucket is worth at a later time; a missing bucket is full. */
  function Level(l: Limits, b: Option<Bucket>, now: real): real {
    if b.None? then l.capacity else Grow(l, b.value.tokens, Max(now - b.value.updatedAt, 0.0))
  }

  /** One check-and-consume; the same arithmetic in both implementations. */
  function Consume(l: Limits, b: Option<Bucket>, c: Call): (Bucket, Verdict) {
    var level := Level(l, b, c.now);
    if level >= c.tokens then (Bucket(level - c.tokens, c.now), Verdict(true, level - c.tokens))
    else (Bucket(level, c.now), Verdict(false, level))
  }

  ghost predicate Sane(l: Limits) {
    l.capacity >= 0.0 && l.refill >= 0.0
  }

  ghost predicate Within(l: Limits, b: Option<Bucket>) {
    b.Some? ==> 0.0 <= b.value.tokens <= l.capacity
  }

  class InMemoryTokenBucket {
    var buckets: map<string, Bucket>

    constructor ()
      ensures buckets == map[]
    {
      buckets := map[];
    }

    /** A missing key starts full; other keys are untouched. */
    method Check(key: string, l: Limits, c: Call) returns (r: Verdict)
      modifies this
      ensures var b := if key in old(buckets) then Some(old(buckets)[key]) else None;
              buckets == old(buckets)[key := Consume(l, b, c).0] && r == Consume(l, b, c).1
      ensures key !in old(buckets) ==>
                && (r.allowed <==> l.capacity >= c.tokens)
                && r.remaining == l.capacity - if r.allowed then c.tokens else 0.0
      ensures key in old(buckets) ==>
                var u := old(buckets)[key].updatedAt;
                var grown := old(buckets)[key].tokens + (if c.now > u then c.now - u else 0.0) * l.refill;
                var level := if grown <= l.capacity then grown else l.capacity;
                (r.allowed <==> level >= c.tokens) && r.remaining == level - if r.allowed then c.tokens else 0.0
      ensures buckets == old(buckets)[key := Bucket(r.remaining, c.now)]
      ensures forall k :: k != key ==>
                (k in buckets <==> k in old(buckets)) && (k in buckets ==> buckets[k] == old(buckets)[k])
      ensures Sane(l) && c.tokens >= 0.0 && Within(l, if key in old(buckets) then Some(old(buckets)[key]) else None) ==>
                0.0 <= r.remaining <= l.capacity && Within(l, Some(buckets[key]))
    {
      var b := if key in buckets then buckets[key] else Bucket(l.capacity, c.now);
      var elapsed := Max(c.now - b.updatedAt, 0.0);
      FullStaysFull(l, elapsed);
      NothingEarned(l, elapsed);
      GrowWithin(l, b.tokens, elapsed);
      var current := Min(l.capacity, b.tokens + elapsed * l.refill);
      if current >= c.tokens {
        current := current - c.tokens;
        buckets := buckets[key := Bucket(current, c.now)];
        return Verdict(true, current);
      }
      buckets := buckets[key := Bucket(current, c.now)];
      return Verdict(false, current);
    }
  }

  /** The Redis hash of the Lua script. A key may be gone once ttl seconds have passed since its last
      update; `gone` says whether Redis has dropped it by now. */
  class RedisTokenBucket {
    var hash: map<string, Bucket>

    constructor ()
      ensures hash == map[]
    {
      hash := map[];
    }

    method Check(key: string, l: Limits, c: Call, gone: bool) returns (r: Verdict)
      modifies this
      ensures var b := if key in old(hash) && !gone then Some(old(hash)[key]) else None;
              hash == old(hash)[key := Consume(l, b, c).0] && r == Consume(l, b, c).1
      ensures key !in old(hash) || gone ==>
                && (r.allowed <==> l.capacity >= c.tokens)
                && r.remaining == l.capacity - if r.allowed then c.tokens else 0.0
      ensures key in old(hash) && !gone ==>
                var u := old(hash)[key].updatedAt;
                var grown := old(hash)[key].tokens + (if c.now > u then c.now - u else 0.0) * l.refill;
                var level := if grown <= l.capacity then grown else l.capacity;
                (r.allowed <==> level >= c.tokens) && r.remaining == level - if r.allowed then c.tokens else 0.0
      ensures hash == old(hash)[key := Bucket(r.remaining, c.now)]
    {
      var tokens, updatedAt := l.capacity, c.now;
      if key in hash && !gone {
        tokens, updatedAt := hash[key].tokens, hash[key].updatedAt;
      }
      var elapsed := Max(c.now - updatedAt, 0.0);
      FullStaysFull(l, elapsed);
      NothingEarned(l, elapsed);
      ConsumeInNumbers(l, if key in hash && !gone then Some(hash[key]) else None, c);
      tokens := Min(l.capacity, tokens + elapsed * l.refill);
      var allowed := false;
      if tokens >= c.tokens {
        tokens := tokens - c.tokens;
        allowed := true;
      }
      hash := hash[key := Bucket(tokens, c.now)];
      return Verdict(allowed, tokens);
    }
  }

  lemma FullStaysFull(l: Limits, dt: real)
    ensures dt == 0.0 ==> Grow(l, l.capacity, dt) == l.capacity
  {
  }

  /** A request for n tokens is allowed exactly if there are n by now: the capacity in a bucket nobody has
      used, otherwise what was left plus the refill for the time that has passed, up to the capacity; an
      allowed request takes them, a denied one takes nothing. */
  lemma ConsumeInNumbers(l: Limits, b: Option<Bucket>, c: Call)
    ensures var (b', v) := Consume(l, b, c); b' == Bucket(v.remaining, c.now)
    ensures b.None? ==>
              var v := Consume(l, b, c).1;
              (v.allowed <==> l.capacity >= c.tokens) && v.remaining == l.capacity - if v.allowed then c.tokens else 0.0
    ensures b.Some? ==>
              var u, v := b.value.updatedAt, Consume(l, b, c).1;
              var grown := b.value.tokens + (if c.now > u then c.now - u else 0.0) * l.refill;
              var level := if grown <= l.capacity then grown else l.capacity;
              (v.allowed <==> level >= c.tokens) && v.remaining == level - if v.allowed then c.tokens else 0.0
  {
  }

  lemma NothingEarned(l: Limits, elapsed: real)
    ensures elapsed == 0.0 ==> elapsed * l.refill == 0.0
  {
  }

  lemma EarnedIsPositive(l: Limits, dt: real)
    requires l.refill >= 0.0 && dt >= 0.0
    ensures Earned(l, dt) >= 0.0
  {
  }

  lemma EarnedAdds(l: Limits, x: real, y: real)
    ensures Earned(l, x + y) == Earned(l, x) + Earned(l, y)
  {
  }

  lemma WrittenOut(l: Limits, forward: real, refilled: real, granted: real, start: real)
    requires granted <= start + Earned(l, forward) && refilled == l.refill * forward
    ensures granted <= start + refilled
  {
  }

  lemma GrowWithin(l: Limits, t: real, dt: real)
    ensures Sane(l) && dt >= 0.0 && 0.0 <= t <= l.capacity ==> t <= Grow(l, t, dt) <= l.capacity
  {
    if Sane(l) && dt >= 0.0 {
      EarnedIsPositive(l, dt);
    }
  }

  lemma ConsumeWithin(l: Limits, b: Option<Bucket>, c: Call)
    requires Sane(l) && c.tokens >= 0.0 && Within(l, b)
    ensures Within(l, Some(Consume(l, b, c).0)) && 0.0 <= Consume(l, b, c).1.remaining <= l.capacity
  {
    if b.Some? {
      GrowWithin(l, b.value.tokens, Max(c.now - b.value.updatedAt, 0.0));
    }
  }

  // ---- traces on one key ----

  function After(l: Limits, b: Option<Bucket>, calls: seq<Call>): Option<Bucket> {
    if calls == [] then b else Some(Consume(l, After(l, b, calls[..|calls| - 1]), calls[|calls| - 1]).0)
  }

  function Last(l: Limits, b: Option<Bucket>, calls: seq<Call>): Verdict
    requires calls != []
  {
    Consume(l, After(l, b, calls[..|calls| - 1]), calls[|calls| - 1]).1
  }

  function Granted(l: Limits, b: Option<Bucket>, calls: seq<Call>): real {
    if calls == [] then 0.0
    else Granted(l, b, calls[..|calls| - 1]) + if Last(l, b, calls).allowed then calls[|calls| - 1].tokens else 0.0
  }

  /** The sum of the clock's forward steps over a stretch of calls, from a given start. */
  function Forward(start: real, calls: seq<Call>): real {
    if calls == [] then 0.0
    else
      var prev := if |calls| == 1 then start else calls[|calls| - 2].now;
      Forward(start, calls[..|calls| - 1]) + Max(calls[|calls| - 1].now - prev, 0.0)
  }

  ghost predicate NonNegative(calls: seq<Call>) {
    forall i :: 0 <= i < |calls| ==> calls[i].tokens >= 0.0
  }

  /** One call hands out no more than the bucket loses, after refilling. */
  lemma ConsumeConserves(l: Limits, b: Bucket, c: Call)
    ensures var (b', v) := Consume(l, Some(b), c);
            b'.updatedAt == c.now &&
            b'.tokens + (if v.allowed then c.tokens else 0.0) <= b.tokens + Earned(l, Max(c.now - b.updatedAt, 0.0))
  {
  }

  lemma {:induction false} EarnsWhatItGrants(l: Limits, b: Bucket, calls: seq<Call>)
    ensures calls != [] ==> After(l, Some(b), calls).value.updatedAt == calls[|calls| - 1].now
    ensures Granted(l, Some(b), calls) + After(l, Some(b), calls).value.tokens <=
        b.tokens + Earned(l, Forward(b.updatedAt, calls))
  {
    if calls == [] {
      assert Earned(l, 0.0) == 0.0;
    } else {
      var init, c := calls[..|calls| - 1], calls[|calls| - 1];
      EarnsWhatItGrants(l, b, init);
      var before := After(l, Some(b), init).value;
      ConsumeConserves(l, before, c);
      EarnedAdds(l, Forward(b.updatedAt, init), Max(c.now - before.updatedAt, 0.0));
      assert Forward(b.updatedAt, calls) == Forward(b.updatedAt, init) + Max(c.now - before.updatedAt, 0.0);
    }
  }

  /** Conservation: what was granted and what is left never exceed what was there plus the refill for the
      time the clock went forward. */
  lemma Conservation(l: Limits, b: Bucket, calls: seq<Call>, forward: real)
    requires forward == Forward(b.updatedAt, calls)
    ensures After(l, Some(b), calls).Some?
    ensures Granted(l, Some(b), calls) + After(l, Some(b), calls).value.tokens <= b.tokens + l.refill * forward
  {
    EarnsWhatItGrants(l, b, calls);
    WrittenOut(l, forward, l.refill * forward,
               Granted(l, Some(b), calls) + After(l, Some(b), calls).value.tokens, b.tokens);
  }

  lemma {:induction false} StaysWithin(l: Limits, b: Option<Bucket>, calls: seq<Call>)
    requires Sane(l) && Within(l, b) && NonNegative(calls)
    ensures Within(l, After(l, b, calls))
  {
    if calls != [] {
      StaysWithin(l, b, calls[..|calls| - 1]);
      ConsumeWithin(l, After(l, b, calls[..|calls| - 1]), calls[|calls| - 1]);
    }
  }

  lemma GrantedIsEarned(l: Limits, b: Option<Bucket>, calls: seq<Call>)
    requires Sane(l) && Within(l, b) && NonNegative(calls) && calls != []
    ensures Granted(l, b, calls) <=
            l.capacity + Earned(l, Forward(if b.Some? then b.value.updatedAt else calls[0].now, calls))
    ensures Within(l, After(l, b, calls))
  {
    var start := if b.Some? then b.value else Bucket(l.capacity, calls[0].now);
    if b.None? {
      StartFull(l, calls);
    }
    EarnsWhatItGrants(l, start, calls);
    StaysWithin(l, b, calls);
    StaysWithin(l, Some(start), calls);
  }

  /** Over any stretch of calls on one key, whatever state it started in and however the clock jumped,
      the bucket grants at most its capacity plus the refill for the time that went forward. */
  lemma GrantBound(l: Limits, b: Option<Bucket>, calls: seq<Call>, forward: real)
    requires Sane(l) && Within(l, b) && NonNegative(calls) && calls != []
    requires forward == Forward(if b.Some? then b.value.updatedAt else calls[0].now, calls)
    ensures Granted(l, b, calls) <= l.capacity + l.refill * forward
    ensures Within(l, After(l, b, calls))
  {
    GrantedIsEarned(l, b, calls);
    WrittenOut(l, forward, l.refill * forward, Granted(l, b, calls), l.capacity);
  }

  lemma {:induction false} StartFull(l: Limits, calls: seq<Call>)
    requires calls != []
    ensures After(l, None, calls) == After(l, Some(Bucket(l.capacity, calls[0].now)), calls)
    ensures Granted(l, None, calls) == Granted(l, Some(Bucket(l.capacity, calls[0].now)), calls)
  {
    if |calls| > 1 {
      StartFull(l, calls[..|calls| - 1]);
    } else {
      assert calls[..0] == [];
    }
  }

  ghost predicate Monotone(calls: seq<Call>) {
    forall i, j :: 0 <= i < j < |calls| ==> calls[i].now <= calls[j].now
  }

  lemma {:induction false} ForwardIsElapsed(start: real, calls: seq<Call>)
    requires calls != [] && Monotone(calls) && start <= calls[0].now
    ensures Forward(start, calls) == calls[|calls| - 1].now - start
  {
    if |calls| > 1 {
      ForwardIsElapsed(start, calls[..|calls| - 1]);
    } else {
      assert calls[..0] == [];
    }
  }

  /** A clock that never goes forward earns nothing. */
  lemma {:induction false} BackwardEarnsNothing(start: real, calls: seq<Call>)
    requires forall i, j :: 0 <= i < j < |calls| ==> calls[j].now <= calls[i].now
    requires calls != [] ==> calls[0].now <= start
    ensures Forward(start, calls) == 0.0
  {
    if calls != [] {
      BackwardEarnsNothing(start, calls[..|calls| - 1]);
    }
  }

  /** With a clock that does not go back: capacity plus refill times elapsed. */
  lemma GrantBoundMonotone(l: Limits, b: Option<Bucket>, calls: seq<Call>, elapsed: real)
    requires Sane(l) && Within(l, b) && NonNegative(calls) && calls != [] && Monotone(calls)
    requires b.Some? ==> b.value.updatedAt <= calls[0].now
    requires elapsed == calls[|calls| - 1].now - if b.Some? then b.value.updatedAt else calls[0].now
    ensures Granted(l, b, calls) <= l.capacity + l.refill * elapsed
  {
    GrantedIsEarned(l, b, calls);
    ForwardIsElapsed(if b.Some? then b.value.updatedAt else calls[0].now, calls);
    WrittenOut(l, elapsed, l.refill * elapsed, Granted(l, b, calls), l.capacity);
  }

  // ---- states that no later call can tell apart ----

  ghost predicate Alike(l: Limits, a: Option<Bucket>, b: Option<Bucket>, from: real) {
    forall now :: now >= from ==> Level(l, a, now) == Level(l, b, now)
  }

  /** Waiting in two steps grows as much as waiting at once. */
  lemma GrowTwice(l: Limits, t: real, x: real, y: real)
    requires Sane(l) && x >= 0.0 && y >= 0.0
    ensures Grow(l, Grow(l, t, x), y) == Grow(l, t, x + y)
  {
    EarnedIsPositive(l, x);
    EarnedIsPositive(l, y);
    EarnedAdds(l, x, y);
  }

  /** A denied call leaves a state no later call can tell from the one before it. */
  lemma DeniedLeavesAlike(l: Limits, b: Option<Bucket>, c: Call)
    requires Sane(l) && (b.Some? ==> b.value.updatedAt <= c.now)
    requires !Consume(l, b, c).1.allowed
    ensures Alike(l, Some(Consume(l, b, c).0), b, c.now)
  {
    forall now | now >= c.now ensures Level(l, Some(Consume(l, b, c).0), now) == Level(l, b, now) {
      if b.Some? {
        GrowTwice(l, b.value.tokens, c.now - b.value.updatedAt, now - c.now);
      } else {
        EarnedIsPositive(l, now - c.now);
      }
    }
  }

  /** Alike states answer alike and stay alike. */
  lemma AlikeAnswers(l: Limits, a: Option<Bucket>, b: Option<Bucket>, c: Call, from: real)
    requires Alike(l, a, b, from) && from <= c.now
    ensures Consume(l, a, c) == Consume(l, b, c)
  {
    assert Level(l, a, c.now) == Level(l, b, c.now);
  }

  /** The calls that were kept. */
  function Kept(calls: seq<Call>, keep: seq<bool>): seq<Call>
    requires |keep| == |calls|
  {
    if calls == [] then []
    else Kept(calls[..|calls| - 1], keep[..|keep| - 1]) + if keep[|keep| - 1] then [calls[|calls| - 1]] else []
  }

  function Answers(l: Limits, b: Option<Bucket>, calls: seq<Call>): seq<Verdict> {
    if calls == [] then [] else Answers(l, b, calls[..|calls| - 1]) + [Last(l, b, calls)]
  }

  function KeptAnswers(vs: seq<Verdict>, keep: seq<bool>): seq<Verdict>
    requires |keep| == |vs|
  {
    if vs == [] then []
    else KeptAnswers(vs[..|vs| - 1], keep[..|keep| - 1]) + if keep[|keep| - 1] then [vs[|vs| - 1]] else []
  }

  lemma {:induction false} AnswersLength(l: Limits, b: Option<Bucket>, calls: seq<Call>)
    ensures |Answers(l, b, calls)| == |calls|
  {
    if calls != [] {
      AnswersLength(l, b, calls[..|calls| - 1]);
    }
  }

  ghost predicate DropsOnlyDenied(l: Limits, b: Option<Bucket>, calls: seq<Call>, keep: seq<bool>)
    requires |keep| == |calls|
  {
    forall i :: 0 <= i < |calls| && !keep[i] ==> !Last(l, b, calls[..i + 1]).allowed
  }

  /** Denied requests cost nothing: with a clock that does not go back, leaving out any subset of the
      denied calls changes the answer of no other call. */
  lemma {:induction false} DeniedCallsCostNothing(l: Limits, b: Option<Bucket>, calls: seq<Call>, keep: seq<bool>)
    requires Sane(l) && Monotone(calls) && |keep| == |calls|
    requires b.Some? && calls != [] ==> b.value.updatedAt <= calls[0].now
    requires DropsOnlyDenied(l, b, calls, keep)
    ensures |Answers(l, b, calls)| == |calls|
    ensures Answers(l, b, Kept(calls, keep)) == KeptAnswers(Answers(l, b, calls), keep)
    ensures calls != [] ==> Alike(l, After(l, b, Kept(calls, keep)), After(l, b, calls), calls[|calls| - 1].now)
  {
    AnswersLength(l, b, calls);
    if calls != [] {
      var n := |calls| - 1;
      var init, c := calls[..n], calls[n];
      forall i | 0 <= i < n && !keep[..n][i] ensures !Last(l, b, init[..i + 1]).allowed {
        assert init[..i + 1] == calls[..i + 1];
      }
      DeniedCallsCostNothing(l, b, init, keep[..n]);
      assert calls[..n + 1] == calls;
      AfterUpdated(l, b, init);
      OneMoreCall(l, b, init, c, Kept(init, keep[..n]), keep[n], KeptAnswers(Answers(l, b, init), keep[..n]));
      AnswersLength(l, b, init);
      assert Answers(l, b, calls)[..n] == Answers(l, b, init);
    }
  }

  /** The step of the induction: a trace and a shorter one have led to alike states with the same
      answers so far, and one more call follows on the first. */
  lemma OneMoreCall(l: Limits, b: Option<Bucket>, init: seq<Call>, c: Call, kept: seq<Call>, keep: bool,
        answers: seq<Verdict>)
    requires Sane(l) && (After(l, b, init).Some? ==> After(l, b, init).value.updatedAt <= c.now)
    requires init != [] ==>
               init[|init| - 1].now <= c.now && Alike(l, After(l, b, kept), After(l, b, init), init[|init| - 1].now)
    requires init == [] ==> kept == []
    requires Answers(l, b, kept) == answers
    requires !keep ==> !Last(l, b, init + [c]).allowed
    ensures var kept' := kept + if keep then [c] else [];
            && Answers(l, b, kept') == answers + (if keep then [Last(l, b, init + [c])] else [])
            && Alike(l, After(l, b, kept'), After(l, b, init + [c]), c.now)
  {
    var full, less := After(l, b, init), After(l, b, kept);
    assert (init + [c])[..|init|] == init;
    assert Alike(l, less, full, c.now);
    if keep {
      AlikeAnswers(l, less, full, c, c.now);
      assert (kept + [c])[..|kept|] == kept;
    } else {
      assert kept + [] == kept;
      DeniedLeavesAlike(l, full, c);
    }
  }

  lemma {:induction false} AfterUpdated(l: Limits, b: Option<Bucket>, calls: seq<Call>)
    ensures calls != [] ==> After(l, b, calls).Some? && After(l, b, calls).value.updatedAt == calls[|calls| - 1].now
    ensures calls == [] ==> After(l, b, calls) == b
  {
  }

  // ---- expiry ----

  /** The Redis bucket over a trace: gone[i] says whether the key had been dropped before call i. */
  function RedisAfter(l: Limits, calls: seq<Call>, gone: seq<bool>): Option<Bucket>
    requires |gone| == |calls|
  {
    if calls == [] then None
    else
      var n := |calls| - 1;
      Some(Consume(l, if gone[n] then None else RedisAfter(l, calls[..n], gone[..n]), calls[n]).0)
  }

  function RedisAnswers(l: Limits, calls: seq<Call>, gone: seq<bool>): seq<Verdict>
    requires |gone| == |calls|
  {
    if calls == [] then []
    else
      var n := |calls| - 1;
      RedisAnswers(l, calls[..n], gone[..n]) +
        [Consume(l, if gone[n] then None else RedisAfter(l, calls[..n], gone[..n]), calls[n]).1]
  }

  /** EXPIRE ttl after every call: a key can only be gone ttl seconds after the last one. */
  ghost predicate ExpiresAfter(calls: seq<Call>, gone: seq<bool>, ttl: real)
    requires |gone| == |calls|
  {
    forall i :: 0 < i < |calls| && gone[i] ==> calls[i].now - calls[i - 1].now >= ttl
  }

  lemma RefilledByThen(l: Limits, t: real, dt: real, ttl: real)
    requires Sane(l) && 0.0 <= t && dt >= ttl && Earned(l, ttl) >= l.capacity
    ensures Grow(l, t, dt) == l.capacity
  {
    EarnedIsPositive(l, dt - ttl);
    EarnedAdds(l, dt - ttl, ttl);
  }

  /** Expiry cannot be observed: if a bucket refills within its time to live, the bucket that expires,
      whenever Redis gets round to it, gives the same answers as one that never does; and the same
      answers as the in-process bucket. */
  lemma {:induction false} ExpiryIsUnobservable(l: Limits, calls: seq<Call>, gone: seq<bool>, ttl: real)
    requires Sane(l) && NonNegative(calls) && Monotone(calls) && |gone| == |calls|
    requires Earned(l, ttl) >= l.capacity && ExpiresAfter(calls, gone, ttl)
    ensures RedisAnswers(l, calls, gone) == Answers(l, None, calls)
    ensures RedisAfter(l, calls, gone) == After(l, None, calls) && Within(l, After(l, None, calls))
  {
    if calls != [] {
      var n := |calls| - 1;
      var init, c := calls[..n], calls[n];
      ExpiryIsUnobservable(l, init, gone[..n], ttl);
      var b := After(l, None, init);
      AfterUpdated(l, None, init);
      if b.Some? {
        assert c.now - b.value.updatedAt == calls[n].now - calls[n - 1].now;
      }
      DroppedOrNot(l, b, c, gone[n], ttl);
      ConsumeWithin(l, b, c);
    }
  }

  /** One call does not notice whether its key has been dropped. */
  lemma DroppedOrNot(l: Limits, b: Option<Bucket>, c: Call, gone: bool, ttl: real)
    requires Sane(l) && Within(l, b) && Earned(l, ttl) >= l.capacity
    requires b.Some? ==> b.value.updatedAt <= c.now && (gone ==> c.now - b.value.updatedAt >= ttl)
    ensures Consume(l, if gone then None else b, c) == Consume(l, b, c)
  {
    if gone && b.Some? {
      RefilledByThen(l, b.value.tokens, c.now - b.value.updatedAt, ttl);
      RefilledWithin(l, b, c.now);
    }
  }

  lemma RefilledWithin(l: Limits, b: Option<Bucket>, now: real)
    requires b.Some? && b.value.updatedAt <= now && Grow(l, b.value.tokens, now - b.value.updatedAt) == l.capacity
    ensures Level(l, b, now) == Level(l, None, now)
  {
  }
}
