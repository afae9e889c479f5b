/** services/worker/tasks/send.py under interleaving: any number of executions of send_email_task on
    any jobs, one shared provider, webhooks, cancellation and crashes, one statement at a time. */
module SendMachine {
  import opened Transitions
  import opened Models
  import opened JobStore
  import opened Webhooks
  import opened FakeProvider
  import opened Worker

  /** When a store call becomes durable. PerStatement: at once, as the docstring of send.py describes.
      PerTransaction: services/worker/main.py commits once, at the end; the claim then takes the row
      lock, everyone else keeps seeing the row as it was, and a crash only drops the lock. */
  datatype Granularity = PerStatement | PerTransaction

  /** Where an execution stands: the statement it will run next. */
  datatype Phase =
    | Claiming
    | ReadingBack                       // the claim matched no row
    | Recovering(mid: MessageId)        // the claimed row already had a message id
    | Looking                           // inside send(): about to consult the cache
    | Trying                            // missed; about to draw a verdict
    | Putting(at: real)                 // accepted; about to put the key
    | Yielding                          // the key was taken meanwhile; about to read its entry
    | Recording(mid: MessageId, at: real)
    | RecordingTransient(error: string)
    | RecordingPermanent(error: string)
    | Ended(outcome: Outcome)
    | Gone                              // killed

  datatype SendExec = SendExec(job: JobId, phase: Phase)

  /** A response of the provider, as it gave it; the execution may time out before it arrives. */
  datatype Reply = Reply(key: JobId, mid: MessageId, at: real, replay: bool)

  /** `claimed` and `replies` are history. */
  datatype State = State(
    now: real,
    db: Db,
    provider: Provider,
    execs: seq<SendExec>,
    claimed: set<JobId>,
    replies: seq<Reply>)

  datatype Action =
    | Tick(dt: real)
    | Start(job: JobId)
    | Step(exec: nat, verdict: Verdict)
    | Timeout(exec: nat, error: string) // the provider accepted, its response is lost: a transient error
    | Abort(exec: nat, error: string)   // an exception nobody expected
    | Crash(exec: nat)
    | InsertJob(job: JobId, campaign: nat, toAddr: string)
    | CancelJob(job: JobId)
    | Ingest(event: Event)
    | Process(id: EventId)
    | Sweep(id: EventId)

  function Init(now: real): State {
    State(now, Db(map[], map[], [], map[]), EMPTY_PROVIDER, [], {}, [])
  }

  predicate InFlight(p: Phase) {
    p.Recovering? || p.Looking? || p.Trying? || p.Putting? || p.Yielding? || p.Recording? || p.RecordingTransient? ||
        p.RecordingPermanent?
  }

  /** Some execution has claimed j and not finished. */
  predicate Locked(s: State, j: JobId) {
    exists i :: 0 <= i < |s.execs| && s.execs[i].job == j && InFlight(s.execs[i].phase)
  }

  /** The tables as the session of an execution that claimed j sees them. */
  function Session(g: Granularity, d: Db, j: JobId): Db {
    if g.PerTransaction? && j in d.jobs then UpdateJob(d, j, ClaimRow(d.jobs[j])) else d
  }

  function WithRow(d: Db, j: JobId, f: EmailJob -> EmailJob): Db {
    if j in d.jobs then UpdateJob(d, j, f(d.jobs[j])) else d
  }

  function Move(s: State, i: nat, p: Phase): State
    requires i < |s.execs|
  {
    s.(execs := s.execs[i := s.execs[i].(phase := p)])
  }

  // ---- the statements of one execution ----

  function DoClaim(g: Granularity, s: State, i: nat): State
    requires i < |s.execs|
  {
    var j := s.execs[i].job;
    if g.PerTransaction? && Locked(s, j) then s   // waits for the row lock
    else if j in s.db.jobs && s.db.jobs[j].status in CLAIMABLE then
      var s' := Move(s, i, if s.db.jobs[j].mid.Some? then Recovering(s.db.jobs[j].mid.value) else Looking);
      s'.(db := if g.PerStatement? then UpdateJob(s.db, j, ClaimRow(s.db.jobs[j])) else s.db,
          claimed := s.claimed + {j})
    else Move(s, i, ReadingBack)
  }

  function DoReadBack(s: State, i: nat): State
    requires i < |s.execs|
  {
    Move(s, i, Ended(if s.execs[i].job in s.db.jobs then Returned else RaisedPermanent("email job does not exist")))
  }

  function DoLook(s: State, i: nat): State
    requires i < |s.execs|
  {
    var j := s.execs[i].job;
    var p := Look(s.provider, j);
    if j in s.provider.cache then
      var e := s.provider.cache[j];
      Move(s, i, Recording(e.mid, e.at)).(provider := p, replies := s.replies + [Reply(j, e.mid, e.at, true)])
    else Move(s, i, Trying).(provider := p)
  }

  function DoRoll(s: State, i: nat, v: Verdict): State
    requires i < |s.execs|
  {
    Move(s, i,
      match v
      case Accept => Putting(s.now)
      case Invalid => RecordingPermanent("invalid recipient")
      case RateLimited => RecordingTransient("429 rate limit exceeded")
      case Unavailable => RecordingTransient("503 service unavailable"))
  }

  function DoPut(s: State, i: nat, at: real): State
    requires i < |s.execs|
  {
    var j := s.execs[i].job;
    if j in s.provider.cache then Move(s, i, Yielding)
    else Move(s, i, Recording(Msg(j), at)).(provider := Put(s.provider, j, at),
        replies := s.replies + [Reply(j, Msg(j), at, false)])
  }

  function DoYield(s: State, i: nat): State
    requires i < |s.execs|
  {
    var j := s.execs[i].job;
    if j in s.provider.cache then
      var e := s.provider.cache[j];
      Move(s, i, Recording(e.mid, e.at)).(provider := Put(s.provider, j, s.now),
          replies := s.replies + [Reply(j, e.mid, e.at, true)])
    else s
  }

  function DoRecord(g: Granularity, s: State, i: nat, m: MessageId, at: real): State
    requires i < |s.execs|
  {
    var j := s.execs[i].job;
    Move(s, i, Ended(Returned)).(db := MarkSent(Session(g, s.db, j), j, m, at))
  }

  function DoRecordTransient(g: Granularity, s: State, i: nat, error: string): State
    requires i < |s.execs|
  {
    var j := s.execs[i].job;
    Move(s, i, Ended(RaisedTransient(error))).(db := WithRow(Session(g, s.db, j), j, MarkTransientRow))
  }

  function DoRecordPermanent(g: Granularity, s: State, i: nat, error: string): State
    requires i < |s.execs|
  {
    var j := s.execs[i].job;
    Move(s, i, Ended(RaisedPermanent(error))).(db := WithRow(Session(g, s.db, j), j, MarkPermanentRow))
  }

  function DoStep(g: Granularity, s: State, i: nat, v: Verdict): State {
    if i >= |s.execs| then s
    else
      match s.execs[i].phase
      case Claiming => DoClaim(g, s, i)
      case ReadingBack => DoReadBack(s, i)
      case Recovering(m) => DoRecord(g, s, i, m, s.now)
      case Looking => DoLook(s, i)
      case Trying => DoRoll(s, i, v)
      case Putting(at) => DoPut(s, i, at)
      case Yielding => DoYield(s, i)
      case Recording(m, at) => DoRecord(g, s, i, m, at)
      case RecordingTransient(e) => DoRecordTransient(g, s, i, e)
      case RecordingPermanent(e) => DoRecordPermanent(g, s, i, e)
      case Ended(_) => s
      case Gone => s
  }

  /** The `finally: commit()` of handle_send_email makes a bare claim durable. */
  function DoAbort(g: Granularity, s: State, i: nat, error: string): State {
    if i >= |s.execs| || s.execs[i].phase.Ended? || s.execs[i].phase.Gone? then s
    else
      var j := s.execs[i].job;
      Move(s, i, Ended(RaisedOther(error))).(db := if InFlight(s.execs[i].phase) then Session(g, s.db, j) else s.db)
  }

  /** The except branch of send_email_task when the accepted response never arrives. */
  function DoTimeout(s: State, i: nat, error: string): State {
    if i < |s.execs| && s.execs[i].phase.Recording? then Move(s, i, RecordingTransient(error)) else s
  }

  function DoCrash(s: State, i: nat): State {
    if i < |s.execs| then Move(s, i, Gone) else s
  }

  // ---- everybody else ----

  /** Job ids are fresh: nothing refers to an id before its row exists. */
  function DoInsertJob(s: State, j: JobId, campaign: nat, toAddr: string): State {
    if j !in s.db.jobs && forall i :: 0 <= i < |s.execs| ==> s.execs[i].job != j then
      s.(db := UpdateJob(s.db, j, NewJob(campaign, toAddr)))
    else s
  }

  function DoCancelJob(g: Granularity, s: State, j: JobId): State {
    if j in s.db.jobs && !(g.PerTransaction? && Locked(s, j)) then
      s.(db := UpdateJob(s.db, j, CancelRow(s.db.jobs[j])))
    else s
  }

  ghost function Next(g: Granularity, s: State, a: Action): State {
    match a
    case Tick(dt) => if dt >= 0.0 then s.(now := s.now + dt) else s
    case Start(j) => s.(execs := s.execs + [SendExec(j, Claiming)])
    case Step(i, v) => DoStep(g, s, i, v)
    case Timeout(i, e) => DoTimeout(s, i, e)
    case Abort(i, e) => DoAbort(g, s, i, e)
    case Crash(i) => DoCrash(s, i)
    case InsertJob(j, campaign, toAddr) => DoInsertJob(s, j, campaign, toAddr)
    case CancelJob(j) => DoCancelJob(g, s, j)
    case Ingest(v) => s.(db := InsertEvent(s.db, v, s.now))
    case Process(e) => s.(db := ProcessEvent(s.db, e, s.now).0)
    case Sweep(e) => if IsOrphan(s.db, e) then s.(db := SweepOne(s.db, e, s.now).0) else s
  }

  ghost function Run(g: Granularity, s: State, acts: seq<Action>): State {
    if acts == [] then s else Next(g, Run(g, s, acts[..|acts| - 1]), acts[|acts| - 1])
  }

  ghost predicate Reachable(g: Granularity, s: State) {
    exists now, acts :: s == Run(g, Init(now), acts)
  }

  lemma {:induction false} RunConcat(g: Granularity, s: State, a: seq<Action>, b: seq<Action>)
    ensures Run(g, s, a + b) == Run(g, Run(g, s, a), b)
  {
    if b == [] {
      assert a + b == a;
    } else {
      assert (a + b)[..|a + b| - 1] == a + b[..|b| - 1];
      RunConcat(g, s, a, b[..|b| - 1]);
    }
  }

  lemma RunStep(g: Granularity, s: State, acts: seq<Action>, n: nat)
    requires n < |acts|
    ensures Run(g, s, acts[..n + 1]) == Next(g, Run(g, s, acts[..n]), acts[n])
    ensures Run(g, s, acts[..0]) == s
  {
    assert acts[..n + 1][..n] == acts[..n];
  }
}
