/** services/worker/main.py, get_provider: which provider object, and so which cache, a call of
    handle_send_email talks to. The send machine has one; here every call is wired to one of several. */
module ProviderWiring {
  import opened Prelude
  import opened Transitions
  import opened Models
  import opened Webhooks
  import opened FakeProvider
  import opened SendMachine
  import S = SendMachine
  import opened SendSafety
  import opened SendTheorems
  import opened Worker

  /** From a call to its provider object. */
  type Wiring = nat -> nat

  /** get_provider() as written: a new object for every call. */
  function PerCall(): Wiring {
    (i: nat) => i
  }

  /** What the provider contract asks for: one object for all. */
  function Shared(): Wiring {
    (i: nat) => 0
  }

  /** One message created: by which call, for which key. */
  datatype Creation = Creation(call: nat, key: JobId)

  /** The machine with its provider objects. `created` is the history of messages; `again` are the calls
      whose lookup missed although their key had been accepted before, through some other object. */
  datatype Deployment = Deployment(s: State, providers: map<nat, Provider>, created: seq<Creation>, again: set<nat>)

  function ProviderOf(d: Deployment, p: nat): Provider {
    if p in d.providers then d.providers[p] else EMPTY_PROVIDER
  }

  /** The machine as the acting call finds it. */
  function Plug(d: Deployment, p: nat): State {
    d.s.(provider := ProviderOf(d, p))
  }

  function Keys(created: seq<Creation>): set<JobId> {
    set n | 0 <= n < |created| :: created[n].key
  }

  predicate LooksAgain(d: Deployment, s: State, i: nat) {
    && i < |s.execs| && s.execs[i].phase.Looking?
    && s.execs[i].job !in s.provider.cache && s.execs[i].job in Keys(d.created)
  }

  predicate Creates(s: State, i: nat) {
    i < |s.execs| && s.execs[i].phase.Putting? && s.execs[i].job !in s.provider.cache
  }

  function DoCall(g: Granularity, w: Wiring, d: Deployment, i: nat, v: Verdict): Deployment {
    var s := Plug(d, w(i));
    var s' := DoStep(g, s, i, v);
    Deployment(
      s',
      d.providers[w(i) := s'.provider],
      if Creates(s, i) then d.created + [Creation(i, s.execs[i].job)] else d.created,
      if LooksAgain(d, s, i) then d.again + {i} else d.again)
  }

  ghost function Next(g: Granularity, w: Wiring, d: Deployment, a: Action): Deployment {
    if a.Step? then DoCall(g, w, d, a.exec, a.verdict) else d.(s := S.Next(g, d.s, a))
  }

  ghost function Run(g: Granularity, w: Wiring, d: Deployment, acts: seq<Action>): Deployment {
    if acts == [] then d else Next(g, w, Run(g, w, d, acts[..|acts| - 1]), acts[|acts| - 1])
  }

  function Init(now: real): Deployment {
    Deployment(S.Init(now), map[], [], {})
  }

  lemma RunStep(g: Granularity, w: Wiring, d: Deployment, acts: seq<Action>, n: nat)
    requires n < |acts|
    ensures Run(g, w, d, acts[..n + 1]) == Next(g, w, Run(g, w, d, acts[..n]), acts[n])
    ensures Run(g, w, d, acts[..0]) == d
  {
    assert acts[..n + 1][..n] == acts[..n];
  }

  // ---- the history is what the providers count ----

  function SendsAt(created: seq<Creation>, w: Wiring, p: nat): nat {
    if created == [] then 0
    else SendsAt(created[..|created| - 1], w, p) + if w(created[|created| - 1].call) == p then 1 else 0
  }

  ghost predicate BookOk(d: Deployment, w: Wiring, p: nat) {
    && ProviderOf(d, p).providerSends == |ProviderOf(d, p).cache| == SendsAt(d.created, w, p)
    && (forall k :: k in ProviderOf(d, p).cache ==> k in Keys(d.created))
  }

  lemma OneMoreCreated(created: seq<Creation>, c: Creation, w: Wiring, p: nat)
    ensures SendsAt(created + [c], w, p) == SendsAt(created, w, p) + if w(c.call) == p then 1 else 0
    ensures Keys(created + [c]) == Keys(created) + {c.key}
  {
    assert (created + [c])[..|created|] == created;
    var more := created + [c];
    assert more[|created|] == c && forall n :: 0 <= n < |created| ==> more[n] == created[n];
  }

  lemma CallKeepsBooks(g: Granularity, w: Wiring, d: Deployment, i: nat, v: Verdict, p: nat)
    requires BookOk(d, w, p)
    ensures BookOk(DoCall(g, w, d, i, v), w, p)
  {
    var s := Plug(d, w(i));
    if Creates(s, i) {
      OneMoreCreated(d.created, Creation(i, s.execs[i].job), w, p);
      assert DoStep(g, s, i, v) == DoPut(s, i, s.execs[i].phase.at);
    } else {
      StepCreatesNot(g, s, i, v);
    }
  }

  lemma StepCreatesNot(g: Granularity, s: State, i: nat, v: Verdict)
    requires !Creates(s, i)
    ensures DoStep(g, s, i, v).provider.providerSends - |DoStep(g, s, i, v).provider.cache|
         == s.provider.providerSends - |s.provider.cache|
    ensures DoStep(g, s, i, v).provider.cache == s.provider.cache
  {
  }

  /** Messages created through an object are what that object counts, so each object on its own reports
      no duplicate, however often the same key was accepted by another. */
  lemma {:induction false} EachCountsItsOwn(g: Granularity, w: Wiring, now: real, acts: seq<Action>, p: nat)
    ensures BookOk(Run(g, w, Init(now), acts), w, p)
    ensures DuplicateSends(ProviderOf(Run(g, w, Init(now), acts), p)) == 0
  {
    if acts != [] {
      var init, a := acts[..|acts| - 1], acts[|acts| - 1];
      EachCountsItsOwn(g, w, now, init, p);
      if a.Step? {
        CallKeepsBooks(g, w, Run(g, w, Init(now), init), a.exec, a.verdict, p);
      }
    }
  }

  // ---- one object for all is the send machine ----

  lemma NextIgnoresProvider(g: Granularity, s: State, a: Action, p: Provider)
    requires !a.Step?
    ensures S.Next(g, s.(provider := p), a) == S.Next(g, s, a).(provider := p)
  {
  }

  /** With one shared object the deployment is the send machine, state by state. */
  lemma {:induction false} SharedIsTheSendMachine(g: Granularity, now: real, acts: seq<Action>)
    ensures Plug(Run(g, Shared(), Init(now), acts), 0) == S.Run(g, S.Init(now), acts)
  {
    if acts != [] {
      var init, a := acts[..|acts| - 1], acts[|acts| - 1];
      SharedIsTheSendMachine(g, now, init);
      var d := Run(g, Shared(), Init(now), init);
      if !a.Step? {
        NextIgnoresProvider(g, d.s, a, ProviderOf(d, 0));
      }
    }
  }

  lemma {:induction false} SendsAtShared(created: seq<Creation>)
    ensures SendsAt(created, Shared(), 0) == |created|
  {
    if created != [] {
      SendsAtShared(created[..|created| - 1]);
    }
  }

  /** So one shared object creates one message a key, at either granularity. */
  lemma SharedNeverDuplicates(g: Granularity, now: real, acts: seq<Action>)
    ensures var d := Run(g, Shared(), Init(now), acts);
            |d.created| == |Keys(d.created)| == ProviderOf(d, 0).providerSends
  {
    var d := Run(g, Shared(), Init(now), acts);
    EachCountsItsOwn(g, Shared(), now, acts, 0);
    SendsAtShared(d.created);
    assert ProviderOf(d, 0).cache.Keys <= Keys(d.created);
    SubsetSize(ProviderOf(d, 0).cache.Keys, Keys(d.created));
    KeysFit(d.created);
  }

  lemma {:induction false} KeysFit(created: seq<Creation>)
    ensures |Keys(created)| <= |created|
    ensures |Keys(created)| == |created| <==> forall m, n :: 0 <= m < n < |created| ==> created[m].key != created[n].key
  {
    if created == [] {
      assert Keys(created) == {};
    } else {
      var init, last := created[..|created| - 1], created[|created| - 1];
      KeysFit(init);
      assert created == init + [last];
      OneMoreCreated(init, last, PerCall(), 0);
      if last.key in Keys(init) {
        assert Keys(created) == Keys(init);
        var n :| 0 <= n < |init| && init[n].key == last.key;
        assert created[n].key == created[|init|].key;
      } else {
        assert |Keys(created)| == |Keys(init)| + 1;
        LastIsNew(init, last);
      }
    }
  }

  lemma LastIsNew(init: seq<Creation>, last: Creation)
    requires last.key !in Keys(init)
    ensures var all := init + [last];
            (forall m, n :: 0 <= m < n < |all| ==> all[m].key != all[n].key)
            <==> forall m, n :: 0 <= m < n < |init| ==> init[m].key != init[n].key
  {
    var all := init + [last];
    assert forall n :: 0 <= n < |init| ==> all[n] == init[n] && init[n].key in Keys(init);
  }

  // ---- the row lock, whatever the wiring ----

  ghost predicate HoldsRow(s: State, i: nat)
    requires i < |s.execs|
  {
    InFlight(s.execs[i].phase) ==> s.execs[i].job in s.db.jobs && s.db.jobs[s.execs[i].job].status in CLAIMABLE
  }

  ghost predicate LockOk(s: State) {
    Serialised(PerTransaction, s) && forall i :: 0 <= i < |s.execs| ==> HoldsRow(s, i)
  }

  /** An execution that stays in flight, or joins an unlocked claimable job, leaves the tables alone. */
  lemma StaysInFlight(s: State, s': State, i: nat, p: Phase)
    requires LockOk(s) && i < |s.execs| && s'.execs == Move(s, i, p).execs && s'.db == s.db
    requires InFlight(p) && !InFlight(s.execs[i].phase) ==>
               !Locked(s, s.execs[i].job) && s.execs[i].job in s.db.jobs &&
                   s.db.jobs[s.execs[i].job].status in CLAIMABLE
    ensures LockOk(s')
  {
    forall k | 0 <= k < |s'.execs| ensures HoldsRow(s', k) {
      assert HoldsRow(s, k);
    }
    if InFlight(p) && !InFlight(s.execs[i].phase) {
      forall k | 0 <= k < |s.execs| && k != i && InFlight(s.execs[k].phase) ensures s.execs[k].job != s.execs[i].job {
        assert !Locked(s, s.execs[i].job);
      }
    }
  }

  /** An execution that ends may change the row of its job and no other. */
  lemma LeavesFlight(s: State, s': State, i: nat, p: Phase)
    requires LockOk(s) && i < |s.execs| && s'.execs == Move(s, i, p).execs && !InFlight(p)
    requires InFlight(s.execs[i].phase) || s'.db == s.db
    requires s'.db.jobs.Keys == s.db.jobs.Keys
    requires forall j :: j in s.db.jobs && j != s.execs[i].job ==> s'.db.jobs[j] == s.db.jobs[j]
    ensures LockOk(s')
  {
    forall k | 0 <= k < |s'.execs| ensures HoldsRow(s', k) {
      assert HoldsRow(s, k);
    }
  }

  lemma StepLockOk(s: State, i: nat, v: Verdict)
    requires LockOk(s) && i < |s.execs|
    ensures LockOk(DoStep(PerTransaction, s, i, v))
  {
    var s' := DoStep(PerTransaction, s, i, v);
    if s'.execs != s.execs {
      StepMovesOne(s, i, v);
      if InFlight(s'.execs[i].phase) {
        StaysInFlight(s, s', i, s'.execs[i].phase);
      } else {
        LeavesFlight(s, s', i, s'.execs[i].phase);
      }
    }
  }

  /** What a statement does at this granularity: tables change only when a call in flight ends. */
  lemma StepMovesOne(s: State, i: nat, v: Verdict)
    requires i < |s.execs|
    ensures var s' := DoStep(PerTransaction, s, i, v);
            && |s'.execs| == |s.execs| && s'.execs == Move(s, i, s'.execs[i].phase).execs
            && s'.db.jobs.Keys == s.db.jobs.Keys
            && (forall j :: j in s.db.jobs && j != s.execs[i].job ==> s'.db.jobs[j] == s.db.jobs[j])
            && (InFlight(s'.execs[i].phase) ==> s'.db == s.db)
            && (s'.db != s.db ==> InFlight(s.execs[i].phase))
            && (InFlight(s'.execs[i].phase) && !InFlight(s.execs[i].phase) ==>
                  && !Locked(s, s.execs[i].job) && s.execs[i].job in s.db.jobs
                  && s.db.jobs[s.execs[i].job].status in CLAIMABLE)
  {
  }

  /** The call has its answer, or is over. */
  predicate Past(p: Phase) {
    !p.Claiming? && !p.Looking? && !p.Trying? && !p.Putting?
  }

  /** The rows of jobs in flight keep their send axis; the phases are as they were or out of flight. */
  lemma OthersLockOk(s: State, s': State)
    requires LockOk(s) && s'.execs == s.execs
    requires forall j :: j in s.db.jobs && Locked(s, j) ==>
        j in s'.db.jobs && s'.db.jobs[j].status == s.db.jobs[j].status
    ensures LockOk(s')
  {
    forall k | 0 <= k < |s'.execs| ensures HoldsRow(s', k) {
      assert HoldsRow(s, k);
      assert InFlight(s.execs[k].phase) ==> Locked(s, s.execs[k].job);
    }
  }

  lemma NextLockOk(s: State, a: Action)
    requires LockOk(s) && !a.Step?
    ensures LockOk(S.Next(PerTransaction, s, a))
  {
    var s' := S.Next(PerTransaction, s, a);
    match a
    case Start(j) => StartLockOk(s, j);
    case Timeout(i, e) => if s' != s { StaysInFlight(s, s', i, RecordingTransient(e)); }
    case Abort(i, e) => if s' != s { LeavesFlight(s, s', i, Ended(RaisedOther(e))); }
    case Crash(i) => if i < |s.execs| { LeavesFlight(s, s', i, Gone); }
    case _ => TablesLockOk(s, a);
  }

  lemma StartLockOk(s: State, j: JobId)
    requires LockOk(s)
    ensures LockOk(S.Next(PerTransaction, s, Start(j)))
  {
    var s' := S.Next(PerTransaction, s, Start(j));
    forall k | 0 <= k < |s'.execs| ensures HoldsRow(s', k) {
      if k < |s.execs| {
        assert HoldsRow(s, k);
      }
    }
  }

  lemma TablesLockOk(s: State, a: Action)
    requires LockOk(s) && (a.Tick? || a.InsertJob? || a.CancelJob? || a.Ingest? || a.Process? || a.Sweep?)
    ensures LockOk(S.Next(PerTransaction, s, a))
  {
    if a.Process? || a.Sweep? {
      ProcessKeepsIdentity(s.db, a.id, s.now);
    }
    OthersLockOk(s, S.Next(PerTransaction, s, a));
  }

  // ---- a message is a duplicate exactly if its call looked again ----

  /** Between its miss and its acceptance a call knows, by the mark, whether its key had been accepted. */
  ghost predicate MarkOk(d: Deployment, i: nat)
    requires i < |d.s.execs|
  {
    var p := d.s.execs[i].phase;
    && (p.Trying? || p.Putting? ==> (d.s.execs[i].job in Keys(d.created) <==> i in d.again))
    && (p.Claiming? || p.Looking? ==> i !in d.again)
  }

  ghost predicate Repeated(created: seq<Creation>, n: nat)
    requires n < |created|
  {
    exists m :: 0 <= m < n && created[m].key == created[n].key
  }

  ghost predicate EntryOk(d: Deployment, n: nat)
    requires n < |d.created|
  {
    var c := d.created[n];
    && c.call < |d.s.execs| && d.s.execs[c.call].job == c.key && Past(d.s.execs[c.call].phase)
    && (Repeated(d.created, n) <==> c.call in d.again)
  }

  ghost predicate MarksOk(d: Deployment) {
    && LockOk(d.s)
    && (forall i :: 0 <= i < |d.s.execs| ==> MarkOk(d, i))
    && (forall i :: i in d.again ==> i < |d.s.execs|)
    && (forall n :: 0 <= n < |d.created| ==> EntryOk(d, n))
  }

  /** A step that creates nothing: entries and marks stay, the acting call's own mark is checked. */
  lemma NothingCreated(d: Deployment, d': Deployment, i: nat)
    requires MarksOk(d) && LockOk(d'.s) && d'.created == d.created
    requires |d.s.execs| <= |d'.s.execs| && d.again <= d'.again <= d.again + {i}
    requires forall k :: 0 <= k < |d.s.execs| ==> d'.s.execs[k].job == d.s.execs[k].job
    requires forall k :: 0 <= k < |d.s.execs| && Past(d.s.execs[k].phase) ==> Past(d'.s.execs[k].phase)
    requires forall k :: 0 <= k < |d'.s.execs| ==>
               (k < |d.s.execs| && k != i && d'.s.execs[k] == d.s.execs[k]) || MarkOk(d', k)
    requires i < |d.s.execs| && Past(d.s.execs[i].phase) ==> d'.again == d.again
    requires i >= |d.s.execs| ==> d'.again == d.again
    ensures MarksOk(d')
  {
    forall k | 0 <= k < |d'.s.execs| ensures MarkOk(d', k) {
      if k < |d.s.execs| {
        assert MarkOk(d, k);
      }
    }
    forall n | 0 <= n < |d'.created| ensures EntryOk(d', n) {
      assert EntryOk(d, n);
    }
  }

  /** The step that creates a message: by the lock nobody else is on its key. */
  lemma CallCreates(w: Wiring, d: Deployment, i: nat, v: Verdict)
    requires MarksOk(d) && Creates(Plug(d, w(i)), i)
    ensures MarksOk(DoCall(PerTransaction, w, d, i, v))
  {
    var d' := DoCall(PerTransaction, w, d, i, v);
    var s, c := Plug(d, w(i)), Creation(i, d.s.execs[i].job);
    assert DoStep(PerTransaction, s, i, v) == DoPut(s, i, s.execs[i].phase.at);
    assert d'.s.execs == Move(d.s, i, Recording(Msg(c.key), s.execs[i].phase.at)).execs && d'.s.db == d.s.db;
    assert d'.created == d.created + [c] && d'.again == d.again;
    StaysInFlight(d.s, d'.s, i, Recording(Msg(c.key), s.execs[i].phase.at));
    OneMoreCreated(d.created, c, w, 0);
    assert MarkOk(d, i);
    forall k | 0 <= k < |d'.s.execs| ensures MarkOk(d', k) {
      assert MarkOk(d, k);
      assert k != i && InFlight(d.s.execs[k].phase) ==> d.s.execs[k].job != c.key;
    }
    forall n | 0 <= n < |d'.created| ensures EntryOk(d', n) {
      EntryAfter(d, d', c, n);
    }
  }

  lemma EntryAfter(d: Deployment, d': Deployment, c: Creation, n: nat)
    requires d'.created == d.created + [c] && d'.again == d.again && n < |d'.created|
    requires n < |d.created| ==> EntryOk(d, n)
    requires |d'.s.execs| == |d.s.execs| && forall k :: 0 <= k < |d.s.execs| ==> d'.s.execs[k].job == d.s.execs[k].job
    requires forall k :: 0 <= k < |d.s.execs| && Past(d.s.execs[k].phase) ==> Past(d'.s.execs[k].phase)
    requires c.call < |d.s.execs| && d.s.execs[c.call].job == c.key && Past(d'.s.execs[c.call].phase)
    requires c.key in Keys(d.created) <==> c.call in d.again
    ensures EntryOk(d', n)
  {
    assert forall m :: 0 <= m < |d.created| ==> d'.created[m] == d.created[m];
    if n == |d.created| {
      assert Repeated(d'.created, n) <==> c.key in Keys(d.created);
    } else {
      assert Repeated(d'.created, n) <==> Repeated(d.created, n);
    }
  }

  lemma MarkAfter(w: Wiring, d: Deployment, i: nat, v: Verdict)
    requires i < |d.s.execs| && MarkOk(d, i) && !Creates(Plug(d, w(i)), i)
    ensures MarkOk(DoCall(PerTransaction, w, d, i, v), i)
  {
    StepAdvances(Plug(d, w(i)), i, v);
  }

  lemma CallMarksOk(w: Wiring, d: Deployment, i: nat, v: Verdict)
    requires MarksOk(d) && i < |d.s.execs|
    ensures MarksOk(DoCall(PerTransaction, w, d, i, v))
  {
    var s := Plug(d, w(i));
    if Creates(s, i) {
      CallCreates(w, d, i, v);
    } else {
      var d' := DoCall(PerTransaction, w, d, i, v);
      assert LockOk(s) by { OthersLockOk(d.s, s); }
      StepLockOk(s, i, v);
      StepMovesOne(s, i, v);
      StepAdvances(s, i, v);
      MarkAfter(w, d, i, v);
      NothingCreated(d, d', i);
    }
  }

  /** Through which phases a call gets to its acceptance. */
  lemma StepAdvances(s: State, i: nat, v: Verdict)
    requires i < |s.execs|
    ensures var p, p' := s.execs[i].phase, DoStep(PerTransaction, s, i, v).execs[i].phase;
            && (Past(p) ==> Past(p'))
            && (p'.Trying? ==> p.Looking? && s.execs[i].job !in s.provider.cache)
            && (p'.Putting? ==> p.Trying?) && (p'.Looking? ==> p.Claiming?) && (p'.Claiming? ==> p.Claiming?)
  {
  }

  lemma NextMarksOk(w: Wiring, d: Deployment, a: Action)
    requires MarksOk(d)
    ensures MarksOk(Next(PerTransaction, w, d, a))
  {
    if a.Step? {
      if a.exec < |d.s.execs| {
        CallMarksOk(w, d, a.exec, a.verdict);
      } else {
        assert DoCall(PerTransaction, w, d, a.exec, a.verdict).s == Plug(d, w(a.exec));
        OthersLockOk(d.s, Plug(d, w(a.exec)));
        NothingCreated(d, DoCall(PerTransaction, w, d, a.exec, a.verdict), a.exec);
      }
    } else {
      NextLockOk(d.s, a);
      OthersKeepPhases(d.s, a);
      NothingCreated(d, Next(PerTransaction, w, d, a), |d.s.execs|);
    }
  }

  lemma OthersKeepPhases(s: State, a: Action)
    requires !a.Step?
    ensures var s' := S.Next(PerTransaction, s, a);
            && |s.execs| <= |s'.execs| && (forall k :: |s.execs| <= k < |s'.execs| ==> s'.execs[k].phase.Claiming?)
            && (forall k :: 0 <= k < |s.execs| ==> s'.execs[k].job == s.execs[k].job)
            && (forall k :: 0 <= k < |s.execs| && s'.execs[k] != s.execs[k] ==> Past(s'.execs[k].phase))
  {
  }

  lemma {:induction false} RunMarksOk(w: Wiring, now: real, acts: seq<Action>)
    ensures MarksOk(Run(PerTransaction, w, Init(now), acts))
  {
    if acts != [] {
      RunMarksOk(w, now, acts[..|acts| - 1]);
      NextMarksOk(w, Run(PerTransaction, w, Init(now), acts[..|acts| - 1]), acts[|acts| - 1]);
    }
  }

  /** As deployed, with a commit at the end of each call, and for every wiring of calls to objects:
      messages created equal distinct keys accepted if and only if no call that got its key accepted had
      looked it up, in vain, after another call had got it accepted. */
  lemma OneMessageAKeyIff(w: Wiring, now: real, acts: seq<Action>)
    ensures var d := Run(PerTransaction, w, Init(now), acts);
            |d.created| == |Keys(d.created)| <==> forall c :: c in d.created ==> c.call !in d.again
  {
    RunMarksOk(w, now, acts);
    var d := Run(PerTransaction, w, Init(now), acts);
    KeysFit(d.created);
    forall n | 0 <= n < |d.created| ensures Repeated(d.created, n) <==> d.created[n].call in d.again {
      assert EntryOk(d, n);
    }
    if forall c :: c in d.created ==> c.call !in d.again {
      forall m, n | 0 <= m < n < |d.created| ensures d.created[m].key != d.created[n].key {
        assert d.created[n] in d.created;
      }
    } else {
      var c :| c in d.created && c.call in d.again;
      var n :| 0 <= n < |d.created| && d.created[n] == c;
      assert Repeated(d.created, n);
    }
  }

  // ---- where looking again comes from ----

  /** A call is torn down, or loses its response, between the acceptance and the record. */
  predicate Interrupts(s: State, a: Action) {
    (a.Crash? || a.Abort? || a.Timeout?) && a.exec < |s.execs| && s.execs[a.exec].phase.Recording?
  }

  /** The key is recorded, or about to be by the call that got it accepted. */
  ghost predicate InHand(s: State, k: JobId) {
    Terminal(s.db, k) || exists i :: 0 <= i < |s.execs| && s.execs[i].job == k && s.execs[i].phase.Recording?
  }

  ghost predicate AllInHand(d: Deployment) {
    d.again == {} && forall k :: k in Keys(d.created) ==> InHand(d.s, k)
  }

  lemma StepInHand(s: State, i: nat, v: Verdict, k: JobId)
    requires LockOk(s) && i < |s.execs| && InHand(s, k)
    ensures InHand(DoStep(PerTransaction, s, i, v), k)
  {
    var s' := DoStep(PerTransaction, s, i, v);
    if Terminal(s.db, k) {
      StepGrows(PerTransaction, s, i, v);
      assert Grows(s.db.jobs[k], s'.db.jobs[k]);
    } else {
      var r :| 0 <= r < |s.execs| && s.execs[r].job == k && s.execs[r].phase.Recording?;
      if r == i {
        assert HoldsRow(s, i);
        assert s' == DoRecord(PerTransaction, s, i, s.execs[i].phase.mid, s.execs[i].phase.at);
      } else {
        StepMovesOne(s, i, v);
        assert s'.execs[r] == s.execs[r];
      }
    }
  }

  lemma OthersInHand(s: State, a: Action, k: JobId)
    requires !a.Step? && !Interrupts(s, a) && InHand(s, k)
    ensures InHand(S.Next(PerTransaction, s, a), k)
  {
    var s' := S.Next(PerTransaction, s, a);
    if Terminal(s.db, k) {
      NextGrows(PerTransaction, s, a);
      assert Grows(s.db.jobs[k], s'.db.jobs[k]);
    } else {
      var r :| 0 <= r < |s.execs| && s.execs[r].job == k && s.execs[r].phase.Recording?;
      assert s'.execs[r] == s.execs[r];
    }
  }

  /** A key in hand is not looked up: its row cannot be claimed, or is locked. */
  lemma InHandIsNotLookedUp(s: State, i: nat)
    requires LockOk(s) && i < |s.execs| && s.execs[i].phase.Looking?
    ensures !InHand(s, s.execs[i].job)
  {
    assert HoldsRow(s, i);
    forall r | 0 <= r < |s.execs| && s.execs[r].phase.Recording? ensures s.execs[r].job != s.execs[i].job {
      assert InFlight(s.execs[r].phase) && InFlight(s.execs[i].phase);
    }
  }

  lemma CallInHand(w: Wiring, d: Deployment, i: nat, v: Verdict)
    requires LockOk(d.s) && AllInHand(d) && i < |d.s.execs|
    ensures AllInHand(DoCall(PerTransaction, w, d, i, v))
  {
    var s, d' := Plug(d, w(i)), DoCall(PerTransaction, w, d, i, v);
    assert LockOk(s) by { OthersLockOk(d.s, s); }
    if s.execs[i].phase.Looking? {
      InHandIsNotLookedUp(s, i);
      assert s.execs[i].job in Keys(d.created) ==> InHand(d.s, s.execs[i].job);
    }
    forall k | k in Keys(d'.created) ensures InHand(d'.s, k) {
      if k in Keys(d.created) {
        assert InHand(d.s, k) && InHand(s, k);
        StepInHand(s, i, v, k);
      } else {
        assert Creates(s, i);
        CreatedIsInHand(w, d, i, v, k);
      }
    }
  }

  lemma CreatedIsInHand(w: Wiring, d: Deployment, i: nat, v: Verdict, k: JobId)
    requires Creates(Plug(d, w(i)), i) && k in Keys(DoCall(PerTransaction, w, d, i, v).created) && k !in Keys(d.created)
    ensures InHand(DoCall(PerTransaction, w, d, i, v).s, k)
  {
    var s := Plug(d, w(i));
    OneMoreCreated(d.created, Creation(i, s.execs[i].job), w, 0);
    assert DoCall(PerTransaction, w, d, i, v).s.execs[i] == SendExec(k, Recording(Msg(k), s.execs[i].phase.at));
  }

  ghost predicate Undisturbed(w: Wiring, now: real, acts: seq<Action>) {
    forall n :: 0 <= n < |acts| ==> !Interrupts(Run(PerTransaction, w, Init(now), acts[..n]).s, acts[n])
  }

  lemma {:induction false} RunInHand(w: Wiring, now: real, acts: seq<Action>)
    requires Undisturbed(w, now, acts)
    ensures AllInHand(Run(PerTransaction, w, Init(now), acts))
  {
    if acts != [] {
      var init, a := acts[..|acts| - 1], acts[|acts| - 1];
      forall n | 0 <= n < |init| ensures !Interrupts(Run(PerTransaction, w, Init(now), init[..n]).s, init[n]) {
        assert init[..n] == acts[..n] && init[n] == acts[n];
      }
      RunInHand(w, now, init);
      RunMarksOk(w, now, init);
      NextInHand(w, Run(PerTransaction, w, Init(now), init), a);
    }
  }

  lemma NextInHand(w: Wiring, d: Deployment, a: Action)
    requires LockOk(d.s) && AllInHand(d) && !Interrupts(d.s, a)
    ensures AllInHand(Next(PerTransaction, w, d, a))
  {
    if a.Step? {
      if a.exec < |d.s.execs| {
        CallInHand(w, d, a.exec, a.verdict);
      } else {
        forall k | k in Keys(d.created) ensures InHand(Plug(d, w(a.exec)), k) {
          assert InHand(d.s, k);
        }
      }
    } else {
      forall k | k in Keys(d.created) ensures InHand(S.Next(PerTransaction, d.s, a), k) {
        OthersInHand(d.s, a, k);
      }
    }
  }

  /** As deployed, a cache of its own for every call is harmless exactly as long as nothing happens to a
      worker between the provider's acceptance and its own record: without such an interruption there is
      one message a key, under every wiring. */
  lemma OneMessageUnlessInterrupted(w: Wiring, now: real, acts: seq<Action>)
    requires Undisturbed(w, now, acts)
    ensures var d := Run(PerTransaction, w, Init(now), acts); |d.created| == |Keys(d.created)|
  {
    RunInHand(w, now, acts);
    OneMessageAKeyIff(w, now, acts);
  }

  // ---- and one that is interrupted ----

  /** A call that claims, misses, is accepted and creates a message, in its four statements. */
  ghost function FourSteps(w: Wiring, d: Deployment, i: nat): Deployment {
    DoCall(PerTransaction, w,
      DoCall(PerTransaction, w,
        DoCall(PerTransaction, w,
          DoCall(PerTransaction, w, d, i, Accept), i, Accept), i, Accept), i, Accept)
  }

  lemma ClaimAndMiss(w: Wiring, d: Deployment, i: nat, j: JobId)
    requires i < |d.s.execs| && d.s.execs[i] == SendExec(j, Claiming) && !Locked(d.s, j)
    requires j in d.s.db.jobs && d.s.db.jobs[j].status in CLAIMABLE && d.s.db.jobs[j].mid.None?
    requires j !in ProviderOf(d, w(i)).cache
    ensures var d' := DoCall(PerTransaction, w, DoCall(PerTransaction, w, d, i, Accept), i, Accept);
            && d'.s.execs == d.s.execs[i := SendExec(j, Trying)] && d'.s.db == d.s.db && d'.s.now == d.s.now
            && d'.created == d.created && d'.again == (if j in Keys(d.created) then d.again + {i} else d.again)
            && ProviderOf(d', w(i)).cache == ProviderOf(d, w(i)).cache
            && forall p :: p != w(i) ==> ProviderOf(d', p) == ProviderOf(d, p)
  {
    var s := Plug(d, w(i));
    assert !Locked(s, j);
    var s1 := DoClaim(PerTransaction, s, i);
    assert s1 == s.(execs := d.s.execs[i := SendExec(j, Looking)], claimed := s.claimed + {j});
    var d1 := DoCall(PerTransaction, w, d, i, Accept);
    assert Plug(d1, w(i)) == s1;
    assert DoStep(PerTransaction, s1, i, Accept) == DoLook(s1, i);
  }

  lemma AcceptAndPut(w: Wiring, d: Deployment, i: nat, j: JobId)
    requires i < |d.s.execs| && d.s.execs[i] == SendExec(j, Trying) && j !in ProviderOf(d, w(i)).cache
    ensures var d' := DoCall(PerTransaction, w, DoCall(PerTransaction, w, d, i, Accept), i, Accept);
            && d'.s.execs == d.s.execs[i := SendExec(j, Recording(Msg(j), d.s.now))]
            && d'.s.db == d.s.db && d'.s.now == d.s.now
            && d'.created == d.created + [Creation(i, j)] && d'.again == d.again
            && forall p :: p != w(i) ==> ProviderOf(d', p) == ProviderOf(d, p)
  {
    var s := Plug(d, w(i));
    var s1 := DoRoll(s, i, Accept);
    assert s1 == s.(execs := d.s.execs[i := SendExec(j, Putting(d.s.now))]);
    var d1 := DoCall(PerTransaction, w, d, i, Accept);
    assert Plug(d1, w(i)) == s1;
    assert DoStep(PerTransaction, s1, i, Accept) == DoPut(s1, i, d.s.now);
  }

  /** Any call on a claimable job that finds its key unknown to its own provider object creates a message,
      whatever other objects know. */
  lemma FreshCallCreates(w: Wiring, d: Deployment, i: nat, j: JobId)
    requires i < |d.s.execs| && d.s.execs[i] == SendExec(j, Claiming) && !Locked(d.s, j)
    requires j in d.s.db.jobs && d.s.db.jobs[j].status in CLAIMABLE && d.s.db.jobs[j].mid.None?
    requires j !in ProviderOf(d, w(i)).cache
    ensures var d' := FourSteps(w, d, i);
            && d'.s.execs == d.s.execs[i := SendExec(j, Recording(Msg(j), d.s.now))] && d'.s.db == d.s.db
            && d'.s.now == d.s.now && d'.created == d.created + [Creation(i, j)]
            && (forall p :: p != w(i) ==> ProviderOf(d', p) == ProviderOf(d, p))
  {
    ClaimAndMiss(w, d, i, j);
    AcceptAndPut(w, DoCall(PerTransaction, w, DoCall(PerTransaction, w, d, i, Accept), i, Accept), i, j);
  }

  function FourActions(i: nat): seq<Action> {
    [Step(i, Accept), Step(i, Accept), Step(i, Accept), Step(i, Accept)]
  }

  lemma {:induction false} RunConcat(g: Granularity, w: Wiring, d: Deployment, a: seq<Action>, b: seq<Action>)
    ensures Run(g, w, d, a + b) == Run(g, w, Run(g, w, d, a), b)
  {
    if b == [] {
      assert a + b == a;
    } else {
      assert (a + b)[..|a + b| - 1] == a + b[..|b| - 1];
      RunConcat(g, w, d, a, b[..|b| - 1]);
    }
  }

  lemma RunTwo(w: Wiring, d: Deployment, a: Action, b: Action)
    ensures Run(PerTransaction, w, d, [a, b]) == Next(PerTransaction, w, Next(PerTransaction, w, d, a), b)
  {
    RunStep(PerTransaction, w, d, [a, b], 0);
    RunStep(PerTransaction, w, d, [a, b], 1);
    assert [a, b][..2] == [a, b];
  }

  lemma RunFour(w: Wiring, d: Deployment, i: nat)
    ensures Run(PerTransaction, w, d, FourActions(i)) == FourSteps(w, d, i)
  {
    var a := Step(i, Accept);
    assert FourActions(i) == [a, a] + [a, a];
    RunConcat(PerTransaction, w, d, [a, a], [a, a]);
    RunTwo(w, d, a, a);
    RunTwo(w, Run(PerTransaction, w, d, [a, a]), a, a);
  }

  const ONE_CALL: seq<Action> := [InsertJob(7, 1, "a@example.com"), Start(7)] + FourActions(0)

  const CRASHED: seq<Action> := ONE_CALL + [Crash(0), Start(7)]

  const CRASH_AND_RETRY: seq<Action> := CRASHED + FourActions(1)

  lemma FirstCall()
    ensures var d := Run(PerTransaction, PerCall(), Init(0.0), ONE_CALL);
            && d.s.execs == [SendExec(7, Recording(Msg(7), 0.0))] && d.s.db.jobs == map[7 := QueuedJob()]
            && d.created == [Creation(0, 7)] && ProviderOf(d, 1) == EMPTY_PROVIDER && d.s.now == 0.0
  {
    var w, start := PerCall(), [InsertJob(7, 1, "a@example.com"), Start(7)];
    RunConcat(PerTransaction, w, Init(0.0), start, FourActions(0));
    JobAndCall();
    var d2 := Run(PerTransaction, w, Init(0.0), start);
    RunFour(w, d2, 0);
    FreshCallCreates(w, d2, 0, 7);
  }

  lemma JobAndCall()
    ensures var d := Run(PerTransaction, PerCall(), Init(0.0), [InsertJob(7, 1, "a@example.com"), Start(7)]);
            && d.s.execs == [SendExec(7, Claiming)] && d.s.db.jobs == map[7 := QueuedJob()] && d.s.now == 0.0
            && d.providers == map[] && d.created == [] && !Locked(d.s, 7)
  {
    RunTwo(PerCall(), Init(0.0), InsertJob(7, 1, "a@example.com"), Start(7));
  }

  lemma CrashFreesTheRow()
    ensures var d := Run(PerTransaction, PerCall(), Init(0.0), CRASHED);
            && d.s.execs == [SendExec(7, Gone), SendExec(7, Claiming)] && d.s.db.jobs == map[7 := QueuedJob()]
            && d.created == [Creation(0, 7)] && ProviderOf(d, 1) == EMPTY_PROVIDER && d.s.now == 0.0
  {
    FirstCall();
    RunConcat(PerTransaction, PerCall(), Init(0.0), ONE_CALL, [Crash(0), Start(7)]);
    var d1 := Run(PerTransaction, PerCall(), Init(0.0), ONE_CALL);
    RunTwo(PerCall(), d1, Crash(0), Start(7));
    assert S.Next(PerTransaction, d1.s, Crash(0)).execs == [SendExec(7, Gone)];
  }

  /** A worker dies between acceptance and record; the retry has an empty cache of its own, and the
      recipient gets a second message for one key. */
  lemma CrashAndRetrySendsTwice()
    ensures var d := Run(PerTransaction, PerCall(), Init(0.0), CRASH_AND_RETRY);
            && d.created == [Creation(0, 7), Creation(1, 7)] && Keys(d.created) == {7}
            && d.s.execs == [SendExec(7, Gone), SendExec(7, Recording(Msg(7), 0.0))]
  {
    CrashFreesTheRow();
    RunConcat(PerTransaction, PerCall(), Init(0.0), CRASHED, FourActions(1));
    var d := Run(PerTransaction, PerCall(), Init(0.0), CRASHED);
    assert !Locked(d.s, 7);
    RunFour(PerCall(), d, 1);
    FreshCallCreates(PerCall(), d, 1, 7);
    assert d.created + [Creation(1, 7)] == [Creation(0, 7), Creation(1, 7)];
    OneMoreCreated(d.created, Creation(1, 7), PerCall(), 0);
  }
}
