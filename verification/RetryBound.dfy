/** How often a task can fail. Everywhere: the retry counts of queued copies and rows stay within the
    limit and Nack never drops a copy. In runs with a single delivery at a time (calm, and no worker dies
    between the handler's return and the end of the attempt) the retry count is the number of failures. */
module RetryBound {
  import opened Entities
  import opened SortedSets
  import opened Keys
  import opened Queues
  import opened Timing
  import opened TaskTable
  import opened Protocol
  import opened Shape
  import opened Frames
  import opened CrashTolerance

  /** In every run of the whole system. */
  lemma RetryCountsBounded(s: System, name: string)
    requires Reachable(s)
    ensures forall t | t in Copies(Get(s.redis, name)) :: t.retryCount == 0 || 0 < t.retryCount < t.maxRetries
    ensures forall id | id in s.rows :: 0 <= s.rows[id].retryCount <= Max(1, s.rows[id].maxRetries)
    ensures forall id | id in s.rows && s.rows[id].state == Failed ::
              s.rows[id].retryCount >= Max(1, s.rows[id].maxRetries)
    ensures forall id | id in s.rows && s.rows[id].state == Retrying ::
              0 < s.rows[id].retryCount < s.rows[id].maxRetries
    ensures Get(s.redis, name).stats.failed == 0
    ensures forall p | InPhase(s, p, Nacking) :: s.attempts[p].task.CanRetry()
  {
    hide Exec, CancellersOk, FreshOk;
    var es :| Exec(Anything, es) == Some(s);
    Always(Anything, es);
    QueueIs(s, name);
  }

  // ----- single delivery -----

  ghost predicate Gentle(s: System, e: Event) {
    && Calm(s, e)
    && (e.Crash? ==> forall p | p in s.attempts && s.attempts[p].node == e.node :: !Decided(s.attempts[p]))
  }

  predicate Decided(a: Attempt) {
    a.phase == Settling || a.phase == Acking || a.phase == Nacking
  }

  ghost predicate DecidedOn(s: System, id: string) {
    exists p :: p in s.attempts && s.attempts[p].task.id == id && Decided(s.attempts[p])
  }

  function Failures(s: System, id: string): nat {
    Count(s.history.failures, id)
  }

  ghost predicate CopiesCharged(s: System) {
    forall name, t | t in Copies(Get(s.redis, name)) && !DecidedOn(s, t.id) :: Failures(s, t.id) == t.retryCount
  }

  ghost predicate AttemptsCharged(s: System) {
    forall p | p in s.attempts && (s.attempts[p].phase == Settling || s.attempts[p].phase == Nacking) ::
      Failures(s, s.attempts[p].task.id) == s.attempts[p].task.retryCount
  }

  ghost predicate FailuresBounded(s: System) {
    && (forall id | id in s.history.failures :: id in s.history.created)
    && (forall id | id in s.history.created :: Failures(s, id) <= Max(1, s.history.created[id].maxRetries))
    && (forall id | id in s.history.created && (id, 1) !in s.history.issued :: Failures(s, id) == 0)
  }

  ghost predicate Charged(s: System) {
    CopiesCharged(s) && AttemptsCharged(s) && FailuresBounded(s)
  }

  /** Steps that charge nobody. */
  lemma ChargedFrom(s: System, r: System, incoming: set<Task>)
    requires Charged(s) && r.history.failures == s.history.failures && r.history.created == s.history.created
    requires s.history.issued <= r.history.issued && ComesFrom(s, r, incoming)
    requires forall t | t in incoming :: Failures(s, t.id) == t.retryCount
    requires forall name, t | t in Copies(Get(r.redis, name)) && DecidedOn(s, t.id) ::
               t in incoming || DecidedOn(r, t.id)
    requires forall p | p in r.attempts && (r.attempts[p].phase == Settling || r.attempts[p].phase == Nacking) ::
               Failures(s, r.attempts[p].task.id) == r.attempts[p].task.retryCount
    ensures Charged(r)
  {
  }

  /** Steps in which no decided attempt ends. */
  lemma ChargedQuiet(s: System, r: System, incoming: set<Task>)
    requires Charged(s) && r.history.failures == s.history.failures && r.history.created == s.history.created
    requires s.history.issued <= r.history.issued && ComesFrom(s, r, incoming)
    requires forall t | t in incoming :: Failures(s, t.id) == t.retryCount
    requires forall p | p in s.attempts && Decided(s.attempts[p]) ::
               p in r.attempts && r.attempts[p].task.id == s.attempts[p].task.id && Decided(r.attempts[p])
    requires forall p | p in r.attempts && (r.attempts[p].phase == Settling || r.attempts[p].phase == Nacking) ::
               Failures(s, r.attempts[p].task.id) == r.attempts[p].task.retryCount
    ensures Charged(r)
  {
    hide Copies, Get, Charged, ComesFrom;
    forall id | DecidedOn(s, id) ensures DecidedOn(r, id) {
      var p :| p in s.attempts && s.attempts[p].task.id == id && Decided(s.attempts[p]);
      assert p in r.attempts && r.attempts[p].task.id == id && Decided(r.attempts[p]);
    }
    hide DecidedOn;
    ChargedFrom(s, r, incoming);
  }

  lemma AttemptsAreCharged(s: System)
    requires Charged(s)
    ensures forall p | p in s.attempts && (s.attempts[p].phase == Settling || s.attempts[p].phase == Nacking) ::
              Failures(s, s.attempts[p].task.id) == s.attempts[p].task.retryCount
  {
    hide CopiesCharged, FailuresBounded;
  }

  lemma UnissuedUncharged(s: System, id: string)
    requires Charged(s) && id in s.history.created && (id, 1) !in s.history.issued
    ensures Failures(s, id) == 0
  {
    hide CopiesCharged, AttemptsCharged;
  }

  lemma ChargedSubmit(s: System, t: Task, at: int)
    requires WellShaped(s) && Charged(s) && (t in s.submitting || t in s.snapshots) && (t.id, 1) !in s.history.issued
    ensures Charged(DoEnqueue(s, t)) && Charged(DoEnqueueDelayed(s, t, at)) && Charged(DoCompensate(s, t))
  {
    hide WellShaped, Charged, ComesFrom, Failures, Enqueued, Queues.Delayed, Compensated, Get, Decided;
    FreshIs(s, t);
    UnissuedUncharged(s, t.id);
    SubmitSources(s, t, at);
    AttemptsAreCharged(s);
    ChargedQuiet(s, DoEnqueue(s, t), {t});
    ChargedQuiet(s, DoEnqueueDelayed(s, t, at), {t});
    ChargedQuiet(s, DoCompensate(s, t), {t});
  }

  lemma ChargedFetch(s: System, p: nat, node: string, name: string, t: Task, now: int)
    requires WellShaped(s) && Tidy(s) && Charged(s) && p !in s.attempts && IsLeast(Get(s.redis, name).ready, t)
    ensures Charged(DoFetch(s, p, node, name, t, now))
  {
    hide Charged, ComesFrom, Failures, Dequeued, Get, IsLeast, WellShaped, Tidy, Agrees;
    LeastIsMember(Get(s.redis, name).ready, t);
    ReadyAgrees(s, name, t);
    FetchSourcesAtHome(s, p, node, name, t, now);
    AttemptsAreCharged(s);
    ChargedQuiet(s, DoFetch(s, p, node, name, t, now), {});
  }

  lemma ChargedExtend(s: System, p: nat)
    requires Charged(s) && p in s.attempts && s.attempts[p].phase == Fetched
    ensures Charged(DoExtend(s, p)) && Charged(Exit(DoExtend(s, p), p)) && Charged(Exit(s, p))
  {
    hide Charged, ComesFrom, Failures, Leased, Get, LongLease, VisibilityMs;
    ExtendSources(s, p);
    AttemptsAreCharged(s);
    ChargedQuiet(s, DoExtend(s, p), {});
    ChargedQuiet(s, Exit(DoExtend(s, p), p), {});
    ChargedQuiet(s, Exit(s, p), {});
  }

  /** An undecided attempt moves without touching the queues. */
  lemma ChargedMove(s: System, r: System, p: nat, a: Attempt)
    requires Charged(s) && p in s.attempts && !Decided(s.attempts[p])
    requires r.redis == s.redis && r.attempts == s.attempts[p := a] && a.phase != Settling && a.phase != Nacking
    requires r.history.failures == s.history.failures
    requires r.history.created == s.history.created && r.history.issued == s.history.issued
    ensures Charged(r)
  {
    hide Charged, ComesFrom, Failures;
    AttemptsAreCharged(s);
    SameRedis(s, r, {});
    ChargedQuiet(s, r, {});
  }

  lemma ChargedScreen(s: System, p: nat, readable: bool)
    requires Charged(s) && p in s.attempts
    ensures s.attempts[p].phase == Loaded ==> Charged(DoScreen(s, p, readable))
    ensures s.attempts[p].phase == Screened ==> Charged(DoTrack(s, p))
    ensures s.attempts[p].phase == Tracked ==> Charged(DoRecheck(s, p, readable))
  {
    hide Charged, SeesTerminal;
    if s.attempts[p].phase == Loaded {
      ChargedMove(s, DoScreen(s, p, readable), p, DoScreen(s, p, readable).attempts[p]);
    } else if s.attempts[p].phase == Screened {
      ChargedMove(s, DoTrack(s, p), p, DoTrack(s, p).attempts[p]);
    } else if s.attempts[p].phase == Tracked {
      ChargedMove(s, DoRecheck(s, p, readable), p, DoRecheck(s, p, readable).attempts[p]);
    }
  }

  lemma ChargedStart(s: System, p: nat, fault: Fault)
    requires Charged(s) && p in s.attempts && s.attempts[p].phase == Cleared
    ensures Charged(DoStart(s, p, fault))
  {
    hide Charged, ComesFrom, Failures, Commits, Committed, Succeeds;
    AttemptsAreCharged(s);
    SameRedis(s, DoStart(s, p, fault), {});
    ChargedQuiet(s, DoStart(s, p, fault), {});
  }

  /** An attempt whose handler has not returned carries the charge of its copy. */
  lemma HeldCharge(s: System, p: nat)
    requires WellShaped(s) && Tidy(s) && Charged(s) && p in s.attempts && !Decided(s.attempts[p])
    ensures Failures(s, s.attempts[p].task.id) == s.attempts[p].task.retryCount
  {
    hide WellShaped, Failures, RowFits, AttemptsCharged, FailuresBounded, Singles, WaitingFit, InflightFit, UnissuedFit,
         Free;
    HeldQueue(s, p);
    AttemptIs(s, p);
    var a := s.attempts[p];
    assert a.copy in Copies(Get(s.redis, a.task.queue));
    assert !DecidedOn(s, a.task.id);
    UndecidedCount(s.history.created, a);
  }

  lemma UndecidedCount(created: map<string, Task>, a: Attempt)
    requires AttemptOk(created, a) && !Decided(a)
    ensures a.task.retryCount == a.copy.retryCount
  {
  }

  lemma FailFrame(s: System, p: nat)
    requires p in s.attempts
    ensures
      var r, t := DoFail(s, p), s.attempts[p].task;
      && r.redis == s.redis && r.history.created == s.history.created && r.history.issued == s.history.issued
      && r.history.failures == s.history.failures[t.id := Count(s.history.failures, t.id) + 1]
      && p in r.attempts && r.attempts == s.attempts[p := r.attempts[p]]
      && r.attempts[p].task == FailedOnce(t) && r.attempts[p].phase == Settling
  {
    hide FailedOnce;
  }

  /** The handler's failure is one more on the copy's count, within the limit of its task. */
  lemma FailLimit(s: System, p: nat)
    requires WellShaped(s) && p in s.attempts && s.attempts[p].phase == Handling
    ensures
      var t := s.attempts[p].task;
      && FailedOnce(t).id == t.id && FailedOnce(t).retryCount == t.retryCount + 1
      && t.id in s.history.created && t.retryCount + 1 <= Max(1, s.history.created[t.id].maxRetries)
  {
  }

  lemma ChargedFail(s: System, p: nat)
    requires WellShaped(s) && Tidy(s) && Charged(s) && p in s.attempts && s.attempts[p].phase == Handling
    ensures Charged(DoFail(s, p))
  {
    hide WellShaped, Tidy, Copies, Get, DoFail, FailedOnce, CopiesCharged, FailuresBounded, AttemptsCharged;
    HeldCharge(s, p);
    HeldQueue(s, p);
    FailFrame(s, p);
    FailLimit(s, p);
    var r, t := DoFail(s, p), s.attempts[p].task;
    assert p in r.attempts && r.attempts[p].task.id == t.id && Decided(r.attempts[p]);
    assert DecidedOn(r, t.id);
    FailBounded(s, r, t.id);
    FailCopies(s, r, p);
    FailAttempts(s, r, p);
  }

  /** Only one attempt holds the task, so no other attempt is charged with it. */
  lemma FailAttempts(s: System, r: System, p: nat)
    requires Tidy(s) && AttemptsCharged(s) && p in s.attempts
    requires p in r.attempts && r.attempts == s.attempts[p := r.attempts[p]]
    requires r.attempts[p].task.id == s.attempts[p].task.id
    requires Failures(r, r.attempts[p].task.id) == r.attempts[p].task.retryCount
    requires forall id | id != s.attempts[p].task.id :: Failures(r, id) == Failures(s, id)
    ensures AttemptsCharged(r)
  {
    hide Failures, Singles, WaitingFit, InflightFit, UnissuedFit, Holding, RowFits;
  }

  lemma FailBounded(s: System, r: System, id: string)
    requires FailuresBounded(s) && id in s.history.created && (id, 1) in s.history.issued
    requires r.history.failures == s.history.failures[id := Failures(s, id) + 1]
    requires Failures(s, id) + 1 <= Max(1, s.history.created[id].maxRetries)
    requires r.history.created == s.history.created && r.history.issued == s.history.issued
    ensures FailuresBounded(r)
  {
  }

  lemma FailCopies(s: System, r: System, p: nat)
    requires CopiesCharged(s) && p in s.attempts && r.redis == s.redis
    requires p in r.attempts && r.attempts == s.attempts[p := r.attempts[p]]
    requires r.attempts[p].task.id == s.attempts[p].task.id
    requires DecidedOn(r, s.attempts[p].task.id)
    requires forall id | id != s.attempts[p].task.id :: Failures(r, id) == Failures(s, id)
    ensures CopiesCharged(r)
  {
    hide Copies, Failures;
    forall id | id != s.attempts[p].task.id && DecidedOn(s, id) ensures DecidedOn(r, id) {
      var x :| x in s.attempts && s.attempts[x].task.id == id && Decided(s.attempts[x]);
      assert x in r.attempts && r.attempts[x].task.id == id && Decided(r.attempts[x]);
    }
    forall name, t | t in Copies(Get(r.redis, name)) && !DecidedOn(r, t.id) ensures Failures(r, t.id) == t.retryCount {
      assert t.id != s.attempts[p].task.id && !DecidedOn(s, t.id);
    }
  }

  lemma ChargedReturn(s: System, p: nat, ok: bool, shutdown: bool, readable: bool)
    requires WellShaped(s) && Tidy(s) && Charged(s) && p in s.attempts && s.attempts[p].phase == Handling
    ensures Charged(DoReturn(s, p, ok, shutdown, readable))
  {
    hide WellShaped, Tidy, Charged, ComesFrom, DoFail, Failures;
    HeldCharge(s, p);
    ChargedFail(s, p);
    AttemptsAreCharged(s);
    var done, gone := Decide(s, p, s.attempts[p].task.(state := Completed)), MoveTo(s, p, Acking);
    SameRedis(s, done, {});
    ChargedQuiet(s, done, {});
    SameRedis(s, gone, {});
    ChargedQuiet(s, gone, {});
  }

  lemma ChargedSettle(s: System, p: nat)
    requires WellShaped(s) && Tidy(s) && Charged(s) && p in s.attempts && s.attempts[p].phase == Settling
    ensures Charged(DoSettle(s, p, NoFault))
  {
    hide WellShaped, Tidy, Charged, ComesFrom, Failures, Committed, Holding;
    AttemptFits(s, p);
    AttemptsAreCharged(s);
    var r := DoSettle(s, p, NoFault);
    SameRedis(s, r, {});
    ChargedQuiet(s, r, {});
  }

  /** Ack leaves no copy of the task behind, Nack only the one it brings. */
  lemma EndedCopies(s: System, p: nat, at: int)
    requires WellShaped(s) && Tidy(s) && p in s.attempts
    ensures forall name, t | t in Copies(Get(DoAck(s, p, false).redis, name)) :: t.id != s.attempts[p].task.id
    ensures forall name, t | t in Copies(Get(DoNack(s, p, at, false).redis, name)) && t.id == s.attempts[p].task.id ::
              t == s.attempts[p].task
  {
    hide WellShaped, Tidy, Acked, Nacked, Exit, DoAck, DoNack, Get;
    HeldQueue(s, p);
    var t := s.attempts[p].task;
    var q := Get(s.redis, t.queue);
    AckedCopies(q, t, at);
    forall id | id in q.inflight ensures q.inflight[id].id == id {
      InflightKeyed(s, t.queue, id);
    }
    EndsRedis(s, p, at);
    forall name, u | name != t.queue && u in Copies(Get(s.redis, name)) ensures u.id != t.id {
      OtherHome(s, name, u);
    }
    var acked, nacked := DoAck(s, p, false).redis, DoNack(s, p, at, false).redis;
    forall name, u | u in Copies(Get(acked, name)) ensures u.id != t.id {
      GetPut(s.redis, t.queue, Acked(q, t.id), name);
    }
    forall name, u | u in Copies(Get(nacked, name)) && u.id == t.id ensures u == t {
      GetPut(s.redis, t.queue, Nacked(q, t, at), name);
    }
  }

  lemma OtherHome(s: System, name: string, u: Task)
    requires WellShaped(s) && Tidy(s) && u in Copies(Get(s.redis, name))
    ensures u.id in s.history.created && s.history.created[u.id].queue == name
  {
    hide WellShaped, Singles, WaitingFit, InflightFit, AttemptsFit, UnissuedFit, NamesAgree;
    CopyIsHome(s, name);
  }

  lemma EndsRedis(s: System, p: nat, at: int)
    requires p in s.attempts
    ensures var t := s.attempts[p].task;
            && DoAck(s, p, false).redis == s.redis[t.queue := Acked(Get(s.redis, t.queue), t.id)]
            && DoNack(s, p, at, false).redis == s.redis[t.queue := Nacked(Get(s.redis, t.queue), t, at)]
  {
    hide Acked, Nacked, Get;
  }

  lemma AckedCopies(q: Queue, t: Task, at: int)
    requires Free(q.ready.Keys, t.id) && Free(q.delayed.Keys, t.id)
    ensures (forall id | id in q.inflight :: q.inflight[id].id == id) ==>
              && (forall u | u in Copies(Acked(q, t.id)) :: u.id != t.id)
              && (forall u | u in Copies(Nacked(q, t, at)) && u.id == t.id :: u == t)
  {
    if forall id | id in q.inflight :: q.inflight[id].id == id {
      forall u | u in (q.inflight - {t.id}).Values ensures u.id != t.id {
        var id :| id in q.inflight - {t.id} && (q.inflight - {t.id})[id] == u;
        assert q.inflight[id] == u;
      }
    }
  }

  lemma ChargedEnd(s: System, p: nat, at: int)
    requires WellShaped(s) && Tidy(s) && Charged(s) && p in s.attempts
    ensures Charged(DoAck(s, p, false))
    ensures s.attempts[p].phase == Nacking ==> Charged(DoNack(s, p, at, false))
  {
    hide WellShaped, Tidy, Charged, ComesFrom, Failures, Acked, Nacked, Copies, Get;
    EndedCopies(s, p, at);
    EndSources(s, p, at, false);
    AttemptsAreCharged(s);
    OneEnds(s, DoAck(s, p, false), p);
    OneEnds(s, DoNack(s, p, at, false), p);
    hide DecidedOn;
    ChargedFrom(s, DoAck(s, p, false), {});
    if s.attempts[p].phase == Nacking {
      ChargedFrom(s, DoNack(s, p, at, false), {s.attempts[p].task});
    }
  }

  lemma OneEnds(s: System, r: System, p: nat)
    requires p in s.attempts && r.attempts == s.attempts - {p}
    ensures forall id | id != s.attempts[p].task.id && DecidedOn(s, id) :: DecidedOn(r, id)
  {
    forall id | id != s.attempts[p].task.id && DecidedOn(s, id) ensures DecidedOn(r, id) {
      var x :| x in s.attempts && s.attempts[x].task.id == id && Decided(s.attempts[x]);
      assert x in r.attempts && r.attempts[x].task.id == id && Decided(r.attempts[x]);
    }
  }

  lemma ChargedCrash(s: System, node: string)
    requires Charged(s) && forall p | p in s.attempts && s.attempts[p].node == node :: !Decided(s.attempts[p])
    ensures Charged(DoCrash(s, node))
  {
    hide Charged, ComesFrom, Failures, Decided;
    AttemptsAreCharged(s);
    SameRedis(s, DoCrash(s, node), {});
    ChargedQuiet(s, DoCrash(s, node), {});
  }

  lemma ChargedDeliver(s: System, node: string, id: string)
    requires Charged(s)
    ensures Charged(DoDeliver(s, node, id))
  {
    hide Charged, ComesFrom, Failures, DoDeliver;
    var p, b := DeliverMoves(s, node, id);
    AttemptsAreCharged(s);
    SameRedis(s, DoDeliver(s, node, id), {});
    ChargedQuiet(s, DoDeliver(s, node, id), {});
  }

  lemma ChargedBatch(s: System, name: string, now: int, batch: int, ts: seq<Task>, ids: seq<string>)
    requires Charged(s)
    ensures IsRange(Get(s.redis, name).delayed, now, batch, ts) ==> Charged(DoPromote(s, name, now, ts))
    ensures Charged(OnQueue(s, name, Reclaimed(Get(s.redis, name), Elements(ids))))
  {
    hide Charged, ComesFrom, Failures, Promoted, Reclaimed, IsRange, Get;
    BatchSources(s, name, now, batch, ts, ids);
    AttemptsAreCharged(s);
    if IsRange(Get(s.redis, name).delayed, now, batch, ts) {
      ChargedQuiet(s, DoPromote(s, name, now, ts), {});
    }
    ChargedQuiet(s, OnQueue(s, name, Reclaimed(Get(s.redis, name), Elements(ids))), {});
  }

  lemma ChargedRelabel(s: System, r: System)
    requires Charged(s) && r.redis == s.redis && r.attempts == s.attempts && r.history.failures == s.history.failures
    requires r.history.created == s.history.created && r.history.issued == s.history.issued
    ensures Charged(r)
  {
  }

  lemma ChargedCreate(s: System, t: Task, now: int)
    requires Charged(s) && t.id !in s.history.created
    ensures Charged(DoCreate(s, t, now))
  {
  }

  lemma ChargedWorkerStep(s: System, e: Event)
    requires WellShaped(s) && Tidy(s) && Charged(s) && Enabled(s, e) && ByWorker(e) && Gentle(s, e)
    ensures Charged(Apply(s, e))
  {
    hide *;
    UnfoldWorker(s, e);
    GentleMeans(s, e);
    CalmMeans(s, e);
    match e
    case Fetch(p, node, name, t, now) => ChargedFetch(s, p, node, name, t, now);
    case Extend(p) => ChargedExtend(s, p);
    case ExtendFails(p, applied) => ChargedExtend(s, p);
    case Screen(p, readable) => ChargedScreen(s, p, readable);
    case Track(p) => ChargedScreen(s, p, false);
    case Recheck(p, readable) => ChargedScreen(s, p, readable);
    case Start(p, fault) => ChargedStart(s, p, fault);
    case Return(p, ok, shutdown, readable) => ChargedReturn(s, p, ok, shutdown, readable);
    case Settle(p, fault) => ChargedSettle(s, p);
    case Ack(p, lost) => ChargedEnd(s, p, 0);
    case Nack(p, clock, jitter, lost) => ChargedEnd(s, p, RetryAt(s.attempts[p].task, clock, jitter));
    case _ =>
  }

  lemma ChargedStep(s: System, e: Event)
    requires WellShaped(s) && Tidy(s) && Charged(s) && Enabled(s, e) && Gentle(s, e)
    ensures Charged(Apply(s, e))
  {
    hide *;
    if ByWorker(e) {
      ChargedWorkerStep(s, e);
      return;
    }
    UnfoldOther(s, e);
    GentleMeans(s, e);
    CalmMeans(s, e);
    match e
    case Create(t, now) => ChargedCreate(s, t, now);
    case Enqueue(t) => ChargedSubmit(s, t, 0);
    case EnqueueDelayed(t, at) => ChargedSubmit(s, t, at);
    case Compensate(t) => ChargedSubmit(s, t, 0);
    case Crash(node) => ChargedCrash(s, node);
    case Deliver(node, id) => ChargedDeliver(s, node, id);
    case CancelWrite(c, fault) => NoCancellers(s);
    case CancelRemove(c, lost) => NoCancellers(s);
    case CancelPublish(c, lost) => NoCancellers(s);
    case Promote(name, now, batch, ts) => ChargedBatch(s, name, now, batch, ts, []);
    case Reclaim(name, now, batch, ids) => ChargedBatch(s, name, now, 0, [], ids);
    case Scan(t, now, olderThan) => ChargedAside(s, t, now, "");
    case Touch(id, now) => ChargedAside(s, NoTask, now, id);
    case Cleanup(gone) => ChargedCleanup(s, gone);
    case _ =>
  }

  lemma ChargedAside(s: System, t: Task, now: int, id: string)
    requires Charged(s)
    ensures Charged(DoScan(s, t, now)) && Charged(DoTouch(s, id, now))
  {
    hide Charged;
    ChargedRelabel(s, DoScan(s, t, now));
    ChargedRelabel(s, DoTouch(s, id, now));
  }

  lemma ChargedCleanup(s: System, gone: set<string>)
    requires Charged(s)
    ensures Charged(DoCleanup(s, gone))
  {
  }

  lemma GentleMeans(s: System, e: Event)
    requires Gentle(s, e)
    ensures Calm(s, e)
    ensures e.Crash? ==> forall p | p in s.attempts && s.attempts[p].node == e.node :: !Decided(s.attempts[p])
  {
    hide Calm, Decided;
  }

  lemma {:induction false} AlwaysCharged(es: seq<Event>)
    requires Exec(Gentle, es).Some?
    ensures WellShaped(Exec(Gentle, es).value) && Tidy(Exec(Gentle, es).value) && Charged(Exec(Gentle, es).value)
  {
    hide Enabled, Apply, Calm, Decided;
    if es != [] {
      var before := es[..|es| - 1];
      AlwaysCharged(before);
      var s := Exec(Gentle, before).value;
      Step(s, es[|es| - 1]);
      TidyStep(s, es[|es| - 1]);
      ChargedStep(s, es[|es| - 1]);
    }
  }

  /** With single delivery no task fails more often than max(1, MaxRetries), and a copy's retry count is
      exactly the number of failures so far. */
  lemma FailuresWithinLimit(es: seq<Event>, id: string)
    requires Exec(Gentle, es).Some? && id in Exec(Gentle, es).value.history.created
    ensures
      var s := Exec(Gentle, es).value;
      && Failures(s, id) <= Max(1, s.history.created[id].maxRetries)
      && forall name, t | (t in Get(s.redis, name).ready || t in Get(s.redis, name).delayed) && t.id == id ::
           t.retryCount == Failures(s, id)
  {
    hide WellShaped, Tidy, Gentle, Exec, Failures, AttemptsCharged;
    AlwaysCharged(es);
    var s := Exec(Gentle, es).value;
    forall name, t | (t in Get(s.redis, name).ready || t in Get(s.redis, name).delayed) && t.id == id
      ensures t.retryCount == Failures(s, id)
    {
      WaitingCopy(s, name, t);
      assert t in Copies(Get(s.redis, name));
      assert !DecidedOn(s, id) by {
        UnattendedUndecided(s, id);
      }
    }
  }

  lemma UnattendedUndecided(s: System, id: string)
    ensures DecidedOn(s, id) ==> Attended(s, id)
  {
  }
}
