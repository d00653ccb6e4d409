/** Task delivery as one state machine over the two stores. An event is one atomic call on a store, or
    one local step of a worker; runs interleave submitters, workers, cancellers and scheduler loops in
    any order. Events carry everything the environment decides: clocks, failed calls, what the handler
    returned, which members a range query picked. */
module Protocol {
  import opened Entities
  import opened SortedSets
  import opened Queues
  import opened Timing
  import opened TaskTable

  /** Where a delivery attempt stands between Dequeue and the end of processTask. */
  datatype Phase =
    | Fetched    // the dequeue script ran, the lease is not extended yet
    | Loaded     // Dequeue returned
    | Screened   // the first state check passed
    | Tracked    // the cancel function is registered
    | Cleared    // the second state check passed
    | Handling   // the Running write was tried, the handler runs
    | Settling   // the outcome is decided, its write is next
    | Acking
    | Nacking

  /** `copy` is the member that was dequeued, `task` the object the worker mutates. `clean` means no
      Update of this attempt has failed so far; `cancelled` is the state of the task context. */
  datatype Attempt = Attempt(
    node: string,
    copy: Task,
    task: Task,
    phase: Phase,
    clean: bool,
    tracked: bool,
    cancelled: bool,
    fetchedAt: int)

  datatype CancelPhase = Writing | Removing | Publishing

  datatype Canceller = Canceller(task: Task, phase: CancelPhase)

  /** What happened to cancel signals. */
  datatype Hearing = Hearing(
    delivered: set<(string, string)>,     // (node, id) of the cancel signals received
    shadowed: set<nat>,                   // attempts whose cancel-map entry another attempt took or deleted
    blind: set<nat>,                      // attempts whose second state check could not be read
    overwritten: set<string>)             // a committed cancel was overwritten by a later Update

  /** When copies were to run, and how they got to ready. A key is (id, version). */
  datatype Times = Times(
    createdAt: map<string, int>,
    queued: set<(string, int)>,           // copies put on a queue by a submitter or by Nack
    due: map<(string, int), int>,         // execution times given to delayed copies
    promotedAt: map<Task, int>,           // clock of the promote call that moved a copy
    selectedAt: map<Task, int>,           // clock of the compensation scan that read a row
    compensated: set<Task>)               // copies enqueued by compensation

  /** What happened so far. No step reads it; the theorems speak about it. */
  datatype History = History(
    created: map<string, Task>,
    issued: set<(string, int)>,           // (id, version) of the copies put on a queue
    content: map<(string, int), TaskState>, // the state committed with each version of a row
    finished: set<string>,                // the handler's outcome was final
    cancelled: set<string>,               // a cancel was committed
    failures: map<string, nat>,           // attempts charged against the retry limit
    cleaned: set<string>,                 // the row was deleted by the cleanup loop
    hearing: Hearing,
    times: Times)

  datatype System = System(
    redis: map<string, Queue>,
    rows: map<string, Task>,
    touched: map<string, int>,            // updated_at of a row, as long as it is pending
    submitting: set<Task>,                // created, first enqueue not issued yet
    attempts: map<nat, Attempt>,
    cancels: map<(string, string), nat>,  // per node: task id to the attempt whose context it cancels
    cancellers: map<nat, Canceller>,
    snapshots: set<Task>,                 // pending rows that compensation loops have read
    signals: set<string>,
    history: History)

  datatype Event =
    | Create(t: Task, now: int)
    | Enqueue(t: Task)
    | EnqueueDelayed(t: Task, at: int)
    | Fetch(p: nat, node: string, name: string, t: Task, now: int)
    | Extend(p: nat)
    | ExtendFails(p: nat, applied: bool)
    | Screen(p: nat, readable: bool)
    | Track(p: nat)
    | Recheck(p: nat, readable: bool)
    | Start(p: nat, fault: Fault)
    | NoHandler(p: nat)
    | Return(p: nat, ok: bool, shutdown: bool, readable: bool)
    | Settle(p: nat, fault: Fault)
    | Ack(p: nat, lost: bool)
    | Nack(p: nat, clock: int, jitter: int, lost: bool)
    | Crash(node: string)
    | CancelRead(c: nat, id: string)
    | CancelWrite(c: nat, fault: Fault)
    | CancelRemove(c: nat, lost: bool)
    | CancelPublish(c: nat, lost: bool)
    | Deliver(node: string, id: string)
    | Promote(name: string, now: int, batch: int, ts: seq<Task>)
    | Reclaim(name: string, now: int, batch: int, ids: seq<string>)
    | Scan(t: Task, now: int, olderThan: int)
    | Compensate(t: Task)
    | Touch(id: string, now: int)
    | Cleanup(gone: set<string>)

  const Init := System(map[], map[], map[], {}, map[], map[], map[], {}, {},
                       History(map[], {}, map[], {}, {}, map[], {},
                               Hearing({}, {}, {}, {}), Times(map[], {}, map[], map[], map[], {})))

  /** Stand in where a step has no task or attempt to name. */
  const NoTask := Task("", "", 0, 0, 0, 0, 0, Pending, 0, {}, "")
  const NoAttempt := Attempt("", NoTask, NoTask, Acking, false, false, false, 0)

  // ----- parts of a step -----

  function OnQueue(s: System, name: string, q: Queue): System {
    s.(redis := s.redis[name := q])
  }

  function Count(m: map<string, nat>, id: string): nat {
    if id in m then m[id] else 0
  }

  predicate LongLease(t: Task) {
    VisibilityTimeout(t.timeout) > DEFAULT_VISIBILITY
  }

  /** The other registered attempts of the same task on the same node. */
  function Rivals(s: System, p: nat): set<nat>
    requires p in s.attempts
  {
    set q | q in s.attempts && q != p && s.attempts[q].tracked && s.attempts[q].node == s.attempts[p].node
            && s.attempts[q].task.id == s.attempts[p].task.id
  }

  function Shadow(s: System, p: nat): (h: History)
    requires p in s.attempts
    ensures h == s.history.(hearing := h.hearing)
  {
    s.history.(hearing := s.history.hearing.(shadowed := s.history.hearing.shadowed + Rivals(s, p)))
  }

  /** processTask returns: its deferred untrackCancel deletes whatever entry the id has by then. */
  function Exit(s: System, p: nat): (r: System)
    requires p in s.attempts
    ensures r.history.created == s.history.created
    ensures r.redis == s.redis
  {
    var a := s.attempts[p];
    s.(attempts := s.attempts - {p},
       cancels := if a.tracked then s.cancels - {(a.node, a.task.id)} else s.cancels,
       history := if a.tracked then Shadow(s, p) else s.history)
  }

  function MoveTo(s: System, p: nat, phase: Phase): System
    requires p in s.attempts
  {
    s.(attempts := s.attempts[p := s.attempts[p].(phase := phase)])
  }

  predicate SeesTerminal(s: System, id: string, readable: bool) {
    readable && id in s.rows && s.rows[id].IsTerminal()
  }

  /** A commit onto a row in the given state. */
  function Reopened(h: Hearing, id: string, state: TaskState): Hearing {
    if state == Cancelled then h.(overwritten := h.overwritten + {id}) else h
  }

  /** One Update call as the stores and the history see it. */
  function Write(s: System, t: Task, fault: Fault): (r: System)
    ensures r.history.created == s.history.created
  {
    if Commits(s.rows, t, fault) then
      s.(rows := Committed(s.rows, t),
         history := s.history.(content := s.history.content[(t.id, t.version + 1) := t.state],
                               hearing := Reopened(s.history.hearing, t.id, s.rows[t.id].state)))
    else s
  }

  /** handleFailure up to its write. */
  function FailedOnce(t: Task): Task {
    var u := t.(retryCount := t.retryCount + 1);
    if u.CanRetry() then u.(state := Retrying) else u.(state := Failed)
  }

  /** The attempt has its outcome in `t`; a terminal one is recorded as final. */
  function Decide(s: System, p: nat, t: Task): (r: System)
    requires p in s.attempts
    ensures r.history.created == s.history.created
  {
    s.(attempts := s.attempts[p := s.attempts[p].(task := t, phase := Settling)],
       history := s.history.(finished := if t.IsTerminal() then s.history.finished + {t.id} else s.history.finished))
  }

  function CountFailure(s: System, id: string): (r: System)
    ensures r.history.created == s.history.created
  {
    s.(history := s.history.(failures := s.history.failures[id := Count(s.history.failures, id) + 1]))
  }

  function Issue(s: System, t: Task): (r: System)
    ensures r.history.created == s.history.created
  {
    s.(history := s.history.(issued := s.history.issued + {(t.id, t.version)},
                             times := s.history.times.(queued := s.history.times.queued + {(t.id, t.version)})))
  }

  function Schedule(s: System, t: Task, at: int): (r: System)
    ensures r.history.created == s.history.created
  {
    s.(history := s.history.(times := s.history.times.(due := s.history.times.due[(t.id, t.version) := at])))
  }

  // ----- steps -----

  ghost predicate InPhase(s: System, p: nat, phase: Phase) {
    p in s.attempts && s.attempts[p].phase == phase
  }

  ghost predicate CancelIn(s: System, c: nat, phase: CancelPhase) {
    c in s.cancellers && s.cancellers[c].phase == phase
  }

  ghost predicate Enabled(s: System, e: Event) {
    match e
    case Create(t, now) => t.id !in s.history.created && t.state == Pending && t.retryCount == 0 && t.version == 1
    case Enqueue(t) => t in s.submitting
    case EnqueueDelayed(t, at) => t in s.submitting
    case Fetch(p, node, name, t, now) => p !in s.attempts && IsLeast(Get(s.redis, name).ready, t)
    case Extend(p) => InPhase(s, p, Fetched)
    case ExtendFails(p, applied) => InPhase(s, p, Fetched) && LongLease(s.attempts[p].task)
    case Screen(p, readable) => InPhase(s, p, Loaded)
    case Track(p) => InPhase(s, p, Screened)
    case Recheck(p, readable) => InPhase(s, p, Tracked)
    case Start(p, fault) => InPhase(s, p, Cleared)
    case NoHandler(p) => InPhase(s, p, Cleared)
    case Return(p, ok, shutdown, readable) => InPhase(s, p, Handling)
    case Settle(p, fault) => InPhase(s, p, Settling)
    case Ack(p, lost) => InPhase(s, p, Acking)
    case Nack(p, clock, jitter, lost) => InPhase(s, p, Nacking) && JitterFits(s.attempts[p].task.retryBackoff, jitter)
    case Crash(node) => true
    case CancelRead(c, id) => c !in s.cancellers && id in s.rows && !s.rows[id].IsTerminal()
    case CancelWrite(c, fault) => CancelIn(s, c, Writing)
    case CancelRemove(c, lost) => CancelIn(s, c, Removing)
    case CancelPublish(c, lost) => CancelIn(s, c, Publishing)
    case Deliver(node, id) => id in s.signals
    case Promote(name, now, batch, ts) => IsRange(Get(s.redis, name).delayed, now, batch, ts)
    case Reclaim(name, now, batch, ids) => IsRange(Get(s.redis, name).lease, now, batch, ids)
    case Scan(t, now, olderThan) => Stale(s, t, now, olderThan)
    case Compensate(t) => t in s.snapshots
    case Touch(id, now) => true
    case Cleanup(gone) => gone <= s.rows.Keys && forall id | id in gone :: s.rows[id].IsTerminal()
  }

  function Apply(s: System, e: Event): System {
    match e
    case Create(t, now) => DoCreate(s, t, now)
    case Enqueue(t) => DoEnqueue(s, t)
    case EnqueueDelayed(t, at) => DoEnqueueDelayed(s, t, at)
    case Fetch(p, node, name, t, now) => DoFetch(s, p, node, name, t, now)
    case Extend(p) => if p in s.attempts then DoExtend(s, p) else s
    case ExtendFails(p, applied) => if p in s.attempts then Exit(if applied then DoExtend(s, p) else s, p) else s
    case Screen(p, readable) => if p in s.attempts then DoScreen(s, p, readable) else s
    case Track(p) => if p in s.attempts then DoTrack(s, p) else s
    case Recheck(p, readable) => if p in s.attempts then DoRecheck(s, p, readable) else s
    case Start(p, fault) => if p in s.attempts then DoStart(s, p, fault) else s
    case NoHandler(p) => if p in s.attempts then DoFail(s, p) else s
    case Return(p, ok, shutdown, readable) => if p in s.attempts then DoReturn(s, p, ok, shutdown, readable) else s
    case Settle(p, fault) => if p in s.attempts then DoSettle(s, p, fault) else s
    case Ack(p, lost) => if p in s.attempts then DoAck(s, p, lost) else s
    case Nack(p, clock, jitter, lost) =>
      if p in s.attempts && JitterFits(s.attempts[p].task.retryBackoff, jitter)
      then DoNack(s, p, RetryAt(s.attempts[p].task, clock, jitter), lost) else s
    case Crash(node) => DoCrash(s, node)
    case CancelRead(c, id) => if id in s.rows then DoCancelRead(s, c, id) else s
    case CancelWrite(c, fault) => if c in s.cancellers then DoCancelWrite(s, c, fault) else s
    case CancelRemove(c, lost) => if c in s.cancellers then DoCancelRemove(s, c, lost) else s
    case CancelPublish(c, lost) => if c in s.cancellers then DoCancelPublish(s, c, lost) else s
    case Deliver(node, id) => DoDeliver(s, node, id)
    case Promote(name, now, batch, ts) => DoPromote(s, name, now, ts)
    case Reclaim(name, now, batch, ids) => OnQueue(s, name, Reclaimed(Get(s.redis, name), Elements(ids)))
    case Scan(t, now, olderThan) => DoScan(s, t, now)
    case Compensate(t) => DoCompensate(s, t)
    case Touch(id, now) => DoTouch(s, id, now)
    case Cleanup(gone) => DoCleanup(s, gone)
  }

  function DoCreate(s: System, t: Task, now: int): (r: System)
    ensures r.redis == s.redis
  {
    s.(rows := s.rows[t.id := t],
       touched := s.touched[t.id := now],
       submitting := s.submitting + {t},
       history := s.history.(created := s.history.created[t.id := t],
                             content := s.history.content[(t.id, t.version) := t.state],
                             times := s.history.times.(createdAt := s.history.times.createdAt[t.id := now])))
  }

  function DoEnqueue(s: System, t: Task): (r: System)
    ensures r.history.created == s.history.created
  {
    Issue(OnQueue(s, t.queue, Enqueued(Get(s.redis, t.queue), t)), t).(submitting := s.submitting - {t})
  }

  function DoEnqueueDelayed(s: System, t: Task, at: int): (r: System)
    ensures r.history.created == s.history.created
  {
    Schedule(Issue(OnQueue(s, t.queue, Queues.Delayed(Get(s.redis, t.queue), t, at)), t), t, at)
    .(submitting := s.submitting - {t})
  }

  function DoFetch(s: System, p: nat, node: string, name: string, t: Task, now: int): (r: System)
    ensures r.history.created == s.history.created
  {
    var hearing := s.history.hearing;
    s.(redis := Dequeued(s.redis, name, t, now + DEFAULT_VISIBILITY / NS_PER_MS),
       attempts := s.attempts[p := Attempt(node, t, t, Fetched, true, false, false, now)],
       history := s.history.(hearing := hearing.(shadowed := hearing.shadowed - {p}, blind := hearing.blind - {p})))
  }

  function DoExtend(s: System, p: nat): (r: System)
    requires p in s.attempts
    ensures r.history.created == s.history.created
  {
    var a := s.attempts[p];
    var t := a.task;
    MoveTo(if LongLease(t)
           then OnQueue(s, t.queue, Leased(Get(s.redis, t.queue), t.id, a.fetchedAt + VisibilityMs(t.timeout)))
           else s, p, Loaded)
  }

  function DoScreen(s: System, p: nat, readable: bool): (r: System)
    requires p in s.attempts
    ensures r.history.created == s.history.created
    ensures r.redis == s.redis
  {
    var id := s.attempts[p].task.id;
    MoveTo(s, p, if SeesTerminal(s, id, readable) then Acking else Screened)
  }

  function DoTrack(s: System, p: nat): (r: System)
    requires p in s.attempts
    ensures r.history.created == s.history.created
    ensures r.redis == s.redis
  {
    var a := s.attempts[p];
    s.(attempts := s.attempts[p := a.(phase := Tracked, tracked := true)],
       cancels := s.cancels[(a.node, a.task.id) := p],
       history := Shadow(s, p))
  }

  function DoRecheck(s: System, p: nat, readable: bool): (r: System)
    requires p in s.attempts
    ensures r.history.created == s.history.created
    ensures r.redis == s.redis
  {
    var id := s.attempts[p].task.id;
    var hearing := s.history.hearing;
    MoveTo(s, p, if SeesTerminal(s, id, readable) then Acking else Cleared)
    .(history := if readable then s.history else s.history.(hearing := hearing.(blind := hearing.blind + {p})))
  }

  function DoStart(s: System, p: nat, fault: Fault): (r: System)
    requires p in s.attempts
    ensures r.history.created == s.history.created
    ensures r.redis == s.redis
  {
    var a := s.attempts[p];
    var t := a.task.(state := Running);
    Write(s, t, fault).(attempts := s.attempts[p := a.(task := Bumped(t), phase := Handling,
                                                       clean := a.clean && Succeeds(s.rows, t, fault))])
  }

  function DoFail(s: System, p: nat): (r: System)
    requires p in s.attempts
    ensures r.history.created == s.history.created
    ensures r.redis == s.redis
  {
    CountFailure(Decide(s, p, FailedOnce(s.attempts[p].task)), s.attempts[p].task.id)
  }

  function DoReturn(s: System, p: nat, ok: bool, shutdown: bool, readable: bool): (r: System)
    requires p in s.attempts
    ensures r.history.created == s.history.created
    ensures r.redis == s.redis
  {
    var a := s.attempts[p];
    var id := a.task.id;
    if ok then Decide(s, p, a.task.(state := Completed))
    else if (a.cancelled || shutdown) && readable && id in s.rows && s.rows[id].state == Cancelled
    then MoveTo(s, p, Acking)
    else DoFail(s, p)
  }

  function DoSettle(s: System, p: nat, fault: Fault): (r: System)
    requires p in s.attempts
    ensures r.history.created == s.history.created
    ensures r.redis == s.redis
  {
    var a := s.attempts[p];
    var w := Write(s, a.task, fault);
    var next := if a.task.state == Retrying then Nacking else Acking;
    if a.task.state == Retrying && !Succeeds(s.rows, a.task, fault) then Exit(w, p)
    else w.(attempts := s.attempts[p := a.(task := Bumped(a.task), phase := next)])
  }

  function DoAck(s: System, p: nat, lost: bool): (r: System)
    requires p in s.attempts
    ensures r.history.created == s.history.created
  {
    var t := s.attempts[p].task;
    Exit(if lost then s else OnQueue(s, t.queue, Acked(Get(s.redis, t.queue), t.id)), p)
  }

  /** The execution time of a retry, as Nack computes it from its clock (ns) and the random draw. */
  function RetryAt(t: Task, clock: int, jitter: int): int
    requires JitterFits(t.retryBackoff, jitter)
  {
    RetryTime(t.retryBackoff, t.retryCount, clock, jitter)
  }

  function DoNack(s: System, p: nat, at: int, lost: bool): (r: System)
    requires p in s.attempts
    ensures r.history.created == s.history.created
  {
    var t := s.attempts[p].task;
    var nacked := Issue(OnQueue(s, t.queue, Nacked(Get(s.redis, t.queue), t, at)), t);
    Exit(if lost then s else if t.retryBackoff > 0 then Schedule(nacked, t, at) else nacked, p)
  }

  function DoCrash(s: System, node: string): (r: System)
    ensures r.history.created == s.history.created
    ensures r.redis == s.redis
  {
    s.(attempts := map p | p in s.attempts && s.attempts[p].node != node :: s.attempts[p],
       cancels := map k | k in s.cancels && k.0 != node :: s.cancels[k])
  }

  function DoCancelRead(s: System, c: nat, id: string): (r: System)
    requires id in s.rows
    ensures r.history.created == s.history.created
    ensures r.redis == s.redis
  {
    s.(cancellers := s.cancellers[c := Canceller(s.rows[id].(state := Cancelled), Writing)])
  }

  function DoCancelWrite(s: System, c: nat, fault: Fault): (r: System)
    requires c in s.cancellers
    ensures r.history.created == s.history.created
    ensures r.redis == s.redis
  {
    var t := s.cancellers[c].task;
    var w := Write(s, t, fault);
    w.(cancellers := if Succeeds(s.rows, t, fault)
                     then s.cancellers[c := Canceller(Bumped(t), Removing)] else s.cancellers - {c},
       history := if Commits(s.rows, t, fault)
                  then w.history.(cancelled := w.history.cancelled + {t.id}) else w.history)
  }

  function DoCancelRemove(s: System, c: nat, lost: bool): (r: System)
    requires c in s.cancellers
    ensures r.history.created == s.history.created
  {
    var t := s.cancellers[c].task;
    (if lost then s else OnQueue(s, t.queue, Removed(Get(s.redis, t.queue), t.id)))
    .(cancellers := s.cancellers[c := Canceller(t, Publishing)])
  }

  function DoCancelPublish(s: System, c: nat, lost: bool): (r: System)
    requires c in s.cancellers
    ensures r.history.created == s.history.created
    ensures r.redis == s.redis
  {
    s.(cancellers := s.cancellers - {c},
       signals := if lost then s.signals else s.signals + {s.cancellers[c].task.id})
  }

  function DoDeliver(s: System, node: string, id: string): (r: System)
    ensures r.history.created == s.history.created
    ensures r.redis == s.redis
  {
    var hearing := s.history.hearing;
    var heard := s.(history := s.history.(hearing := hearing.(delivered := hearing.delivered + {(node, id)})));
    if (node, id) in s.cancels && s.cancels[(node, id)] in s.attempts then
      var p := s.cancels[(node, id)];
      heard.(attempts := s.attempts[p := s.attempts[p].(cancelled := true)])
    else heard
  }

  function Stamped(times: Times, ts: seq<Task>, now: int): Times {
    times.(promotedAt := times.promotedAt + map t | t in Elements(ts) :: now)
  }

  function DoPromote(s: System, name: string, now: int, ts: seq<Task>): (r: System)
    ensures r.history.created == s.history.created
  {
    OnQueue(s, name, Promoted(Get(s.redis, name), Elements(ts)))
    .(history := s.history.(times := Stamped(s.history.times, ts, now)))
  }

  function DoCompensate(s: System, t: Task): (r: System)
    ensures r.history.created == s.history.created
  {
    var q := Get(s.redis, t.queue);
    if t.id in q.inflight then s
    else OnQueue(s, t.queue, Compensated(q, t))
         .(history := s.history.(issued := s.history.issued + {(t.id, t.version)},
                                 times := s.history.times.(compensated := s.history.times.compensated + {t})))
  }

  /** FindStaleByState selects the row: pending, and not written for longer than `olderThan`. */
  predicate Stale(s: System, t: Task, now: int, olderThan: int) {
    && t.id in s.rows && s.rows[t.id].state == Pending && t == s.rows[t.id].(rest := t.rest)
    && t.id in s.touched && s.touched[t.id] < now - olderThan
  }

  function DoScan(s: System, t: Task, now: int): (r: System)
    ensures r.history.created == s.history.created
    ensures r.redis == s.redis
  {
    s.(snapshots := s.snapshots + {t},
       history := s.history.(times := s.history.times.(selectedAt := s.history.times.selectedAt[t := now])))
  }

  /** TouchUpdatedAt, after a compensation enqueue or at any other time. */
  function DoTouch(s: System, id: string, now: int): (r: System)
    ensures r.history.created == s.history.created
    ensures r.redis == s.redis
  {
    s.(touched := if id in s.touched then s.touched[id := now] else s.touched)
  }

  function DoCleanup(s: System, gone: set<string>): (r: System)
    ensures r.history.created == s.history.created
    ensures r.redis == s.redis
  {
    s.(rows := s.rows - gone, history := s.history.(cleaned := s.history.cleaned + gone))
  }

  /** The steps of the worker that processes a task. */
  predicate ByWorker(e: Event) {
    || e.Fetch? || e.Extend? || e.ExtendFails? || e.Screen? || e.Track? || e.Recheck? || e.Start? || e.NoHandler?
    || e.Return? || e.Settle? || e.Ack? || e.Nack?
  }

  /** Enabled and Apply spelled out, event by event. */
  lemma UnfoldWorker(s: System, e: Event)
    requires Enabled(s, e) && ByWorker(e)
    ensures
      match e
      case Fetch(p, node, name, t, now) =>
        && p !in s.attempts && IsLeast(Get(s.redis, name).ready, t)
        && Apply(s, e) == DoFetch(s, p, node, name, t, now)
      case Extend(p) => p in s.attempts && s.attempts[p].phase == Fetched && Apply(s, e) == DoExtend(s, p)
      case ExtendFails(p, applied) =>
        && p in s.attempts && s.attempts[p].phase == Fetched && LongLease(s.attempts[p].task)
        && Apply(s, e) == Exit(if applied then DoExtend(s, p) else s, p)
      case Screen(p, readable) =>
        p in s.attempts && s.attempts[p].phase == Loaded && Apply(s, e) == DoScreen(s, p, readable)
      case Track(p) => p in s.attempts && s.attempts[p].phase == Screened && Apply(s, e) == DoTrack(s, p)
      case Recheck(p, readable) =>
        p in s.attempts && s.attempts[p].phase == Tracked && Apply(s, e) == DoRecheck(s, p, readable)
      case Start(p, fault) => p in s.attempts && s.attempts[p].phase == Cleared && Apply(s, e) == DoStart(s, p, fault)
      case NoHandler(p) => p in s.attempts && s.attempts[p].phase == Cleared && Apply(s, e) == DoFail(s, p)
      case Return(p, ok, shutdown, readable) =>
        && p in s.attempts && s.attempts[p].phase == Handling
        && Apply(s, e) == DoReturn(s, p, ok, shutdown, readable)
      case Settle(p, fault) =>
        p in s.attempts && s.attempts[p].phase == Settling && Apply(s, e) == DoSettle(s, p, fault)
      case Ack(p, lost) => p in s.attempts && s.attempts[p].phase == Acking && Apply(s, e) == DoAck(s, p, lost)
      case Nack(p, clock, jitter, lost) =>
        && p in s.attempts && s.attempts[p].phase == Nacking && JitterFits(s.attempts[p].task.retryBackoff, jitter)
        && Apply(s, e) == DoNack(s, p, RetryAt(s.attempts[p].task, clock, jitter), lost)
      case _ => false
  {
    hide DoFetch, DoExtend, DoScreen, DoTrack, DoRecheck, DoStart, DoFail, DoReturn, DoSettle, DoAck, DoNack, Exit,
         LongLease, IsLeast, RetryAt, JitterFits;
  }

  lemma UnfoldOther(s: System, e: Event)
    requires Enabled(s, e) && !ByWorker(e)
    ensures
      match e
      case Create(t, now) =>
        && t.id !in s.history.created && t.state == Pending && t.retryCount == 0 && t.version == 1
        && Apply(s, e) == DoCreate(s, t, now)
      case Enqueue(t) => t in s.submitting && Apply(s, e) == DoEnqueue(s, t)
      case EnqueueDelayed(t, at) => t in s.submitting && Apply(s, e) == DoEnqueueDelayed(s, t, at)
      case Crash(node) => Apply(s, e) == DoCrash(s, node)
      case CancelRead(c, id) =>
        && c !in s.cancellers && id in s.rows && !s.rows[id].IsTerminal()
        && Apply(s, e) == DoCancelRead(s, c, id)
      case CancelWrite(c, fault) =>
        c in s.cancellers && s.cancellers[c].phase == Writing && Apply(s, e) == DoCancelWrite(s, c, fault)
      case CancelRemove(c, lost) =>
        c in s.cancellers && s.cancellers[c].phase == Removing && Apply(s, e) == DoCancelRemove(s, c, lost)
      case CancelPublish(c, lost) =>
        c in s.cancellers && s.cancellers[c].phase == Publishing && Apply(s, e) == DoCancelPublish(s, c, lost)
      case Deliver(node, id) => id in s.signals && Apply(s, e) == DoDeliver(s, node, id)
      case Promote(name, now, batch, ts) =>
        IsRange(Get(s.redis, name).delayed, now, batch, ts) && Apply(s, e) == DoPromote(s, name, now, ts)
      case Reclaim(name, now, batch, ids) =>
        && IsRange(Get(s.redis, name).lease, now, batch, ids)
        && Apply(s, e) == OnQueue(s, name, Reclaimed(Get(s.redis, name), Elements(ids)))
      case Scan(t, now, olderThan) => Stale(s, t, now, olderThan) && Apply(s, e) == DoScan(s, t, now)
      case Compensate(t) => t in s.snapshots && Apply(s, e) == DoCompensate(s, t)
      case Touch(id, now) => Apply(s, e) == DoTouch(s, id, now)
      case Cleanup(gone) =>
        && gone <= s.rows.Keys && (forall id | id in gone :: s.rows[id].IsTerminal())
        && Apply(s, e) == DoCleanup(s, gone)
      case _ => false
  {
    hide DoCreate, DoEnqueue, DoEnqueueDelayed, DoCrash, DoCancelRead, DoCancelWrite, DoCancelRemove, DoCancelPublish,
         DoDeliver, DoPromote, DoScan, DoCompensate, DoTouch, DoCleanup, IsRange, Stale, Reclaimed, OnQueue;
  }

  lemma CreatesOnce(s: System, e: Event)
    requires Enabled(s, e) && e.Create?
    ensures e.t.id !in s.history.created
  {
  }

  /** Only Create adds a task. */
  lemma CreatedByCreate(s: System, e: Event)
    requires Enabled(s, e)
    ensures Apply(s, e).history.created == if e.Create? then s.history.created[e.t.id := e.t] else s.history.created
  {
    hide Apply, Enabled, Reclaimed, IsRange, IsLeast, LongLease, Get, Elements;
    if ByWorker(e) {
      UnfoldWorker(s, e);
    } else {
      UnfoldOther(s, e);
    }
  }

  // ----- runs -----

  /** The state after a run, if each of its events was enabled and allowed when it happened. */
  ghost function Exec(allowed: (System, Event) -> bool, es: seq<Event>): Option<System> {
    if es == [] then Some(Init)
    else
      var before := Exec(allowed, es[..|es| - 1]);
      var e := es[|es| - 1];
      if before.Some? && Enabled(before.value, e) && allowed(before.value, e)
      then Some(Apply(before.value, e)) else None
  }

  const Anything: (System, Event) -> bool := (s, e) => true

  /** `s` is the state after some run of the whole system. */
  ghost predicate Reachable(s: System) {
    exists es :: Exec(Anything, es) == Some(s)
  }

  lemma ExecAppend(allowed: (System, Event) -> bool, es: seq<Event>, e: Event)
    requires Exec(allowed, es).Some?
    requires Enabled(Exec(allowed, es).value, e) && allowed(Exec(allowed, es).value, e)
    ensures Exec(allowed, es + [e]) == Some(Apply(Exec(allowed, es).value, e))
  {
  }

  /** One event more at the end of a run. */
  lemma Then(allowed: (System, Event) -> bool, es: seq<Event>, s: System, e: Event) returns (r: System)
    requires Exec(allowed, es) == Some(s) && Enabled(s, e) && allowed(s, e)
    ensures r == Apply(s, e) && Exec(allowed, es + [e]) == Some(r)
  {
    hide Enabled, Apply;
    ExecAppend(allowed, es, e);
    r := Apply(s, e);
  }

  /** A stretch of a run that begins in `start`. */
  ghost function Run(start: System, es: seq<Event>): Option<System> {
    if es == [] then Some(start)
    else
      var before := Run(start, es[..|es| - 1]);
      var e := es[|es| - 1];
      if before.Some? && Enabled(before.value, e) then Some(Apply(before.value, e)) else None
  }

  lemma RunEmpty(start: System)
    ensures Run(start, []) == Some(start)
  {
  }

  /** One event more at the end of a stretch. */
  lemma Go(start: System, es: seq<Event>, s: System, e: Event) returns (fs: seq<Event>, r: System)
    requires Run(start, es) == Some(s) && Enabled(s, e)
    ensures fs == es + [e] && r == Apply(s, e) && Run(start, fs) == Some(r)
  {
    hide Enabled, Apply;
    fs, r := es + [e], Apply(s, e);
    assert fs[..|fs| - 1] == es;
  }

  lemma {:induction false} RunConcat(start: System, es: seq<Event>, mid: System, fs: seq<Event>)
    requires Run(start, es) == Some(mid) && Run(mid, fs).Some?
    ensures Run(start, es + fs) == Run(mid, fs)
  {
    hide Enabled, Apply;
    if fs == [] {
      assert es + fs == es;
    } else {
      var init := fs[..|fs| - 1];
      RunConcat(start, es, mid, init);
      assert (es + fs)[..|es + fs| - 1] == es + init;
    }
  }

  lemma Join(s: System, es: seq<Event>, mid: System, fs: seq<Event>, r: System) returns (all: seq<Event>)
    requires Run(s, es) == Some(mid) && Run(mid, fs) == Some(r)
    ensures all == es + fs && Run(s, all) == Some(r)
  {
    hide Run;
    RunConcat(s, es, mid, fs);
    all := es + fs;
  }

  /** What is reached from a reachable state is reachable. */
  lemma {:induction false} StaysReachable(start: System, es: seq<Event>, s: System)
    requires Reachable(start) && Run(start, es) == Some(s)
    ensures Reachable(s)
  {
    hide Enabled, Apply;
    if es != [] {
      var before := Run(start, es[..|es| - 1]).value;
      StaysReachable(start, es[..|es| - 1], before);
      var fs :| Exec(Anything, fs) == Some(before);
      ExecAppend(Anything, fs, es[|es| - 1]);
    }
  }
}
