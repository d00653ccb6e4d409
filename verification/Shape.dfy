/** The basic invariant of every run: what each structure may hold. From it follow the priority order
    of the ready queues, a lease for every inflight copy, and the retry limit. */
module Shape {
  import opened Entities
  import opened SortedSets
  import opened Keys
  import opened Queues
  import opened Timing
  import opened TaskTable
  import opened Protocol

  /** The fields nobody rewrites after submission. */
  predicate Same(a: Task, b: Task) {
    && a.id == b.id && a.queue == b.queue && a.priority == b.priority && a.timeout == b.timeout
    && a.maxRetries == b.maxRetries && a.retryBackoff == b.retryBackoff && a.mentions == b.mentions
  }

  predicate Known(created: map<string, Task>, t: Task) {
    t.id in created && Same(created[t.id], t)
  }

  /** A copy that may sit in a queue: not terminal, and with a retry left if it ever failed. */
  predicate Good(created: map<string, Task>, t: Task) {
    && Known(created, t)
    && (t.state == Pending || t.state == Retrying)
    && (t.retryCount == 0 || 0 < t.retryCount < t.maxRetries)
    && t.version >= 1
  }

  /** A copy in the inflight hash of queue `name`: under its own id, put there by a dequeue from its own
      queue, and with a lease beside it if that queue's name agrees. */
  predicate InflightOk(created: map<string, Task>, name: string, q: Queue, id: string)
    requires id in q.inflight
  {
    var t := q.inflight[id];
    Good(created, t) && t.id == id && InflightName(t.queue) == name && (Agrees(t.queue) ==> id in q.lease)
  }

  /** A lease in the set of queue `name` belongs to one of its tasks or was put there by the script. */
  predicate LeaseOk(created: map<string, Task>, name: string, id: string) {
    id in created && (created[id].queue == name || LeaseName(created[id].queue) == name)
  }

  predicate QueueOk(created: map<string, Task>, name: string, q: Queue) {
    && (forall t | t in q.ready :: Good(created, t) && t.queue == name && q.ready[t] == ReadyScore(t))
    && (forall t | t in q.delayed :: Good(created, t) && t.queue == name)
    && (forall id | id in q.inflight :: InflightOk(created, name, q, id))
    && (forall id | id in q.lease :: LeaseOk(created, name, id))
    && q.stats.failed == 0
  }

  predicate RetryCountOk(t: Task) {
    0 <= t.retryCount <= Max(1, t.maxRetries)
  }

  /** A failed task has used up its retries, a retrying one has some left. */
  predicate CountFits(t: Task) {
    && (t.state == Failed ==> t.retryCount > 0 && t.retryCount >= t.maxRetries)
    && (t.state == Retrying ==> 0 < t.retryCount < t.maxRetries)
  }

  predicate AttemptOk(created: map<string, Task>, a: Attempt) {
    && Good(created, a.copy)
    && Same(a.copy, a.task)
    && a.task.version >= 1
    && match a.phase
       case Handling => a.task == a.copy.(state := Running, version := a.copy.version + 1)
       case Settling =>
         && RetryCountOk(a.task) && CountFits(a.task)
         && (a.task.state == Completed || a.task.state == Failed || a.task.state == Retrying)
         && (a.task.version == a.copy.version || a.task.version == a.copy.version + 1)
       case Acking => true
       case Nacking => a.task.state == Retrying && 0 < a.task.retryCount < a.task.maxRetries
       case _ => a.task == a.copy
  }

  predicate RowOk(created: map<string, Task>, id: string, row: Task) {
    && row.id == id && Known(created, row) && RetryCountOk(row) && CountFits(row) && row.version >= 1
    && (row.state == Pending ==> row.version == 1 && row.retryCount == 0)
  }

  predicate CancellerOk(created: map<string, Task>, c: Canceller) {
    Known(created, c.task) && RetryCountOk(c.task) && c.task.version >= 1 && c.task.state == Cancelled
  }

  predicate FreshCopy(created: map<string, Task>, t: Task) {
    Good(created, t) && t.state == Pending && t.version == 1 && t.retryCount == 0
  }

  predicate QueuesOk(created: map<string, Task>, redis: map<string, Queue>) {
    forall name | name in redis :: QueueOk(created, name, redis[name])
  }

  predicate AttemptsOk(created: map<string, Task>, attempts: map<nat, Attempt>) {
    forall p | p in attempts :: AttemptOk(created, attempts[p])
  }

  predicate RowsOk(created: map<string, Task>, rows: map<string, Task>) {
    forall id | id in rows :: RowOk(created, id, rows[id])
  }

  predicate CancellersOk(created: map<string, Task>, cancellers: map<nat, Canceller>) {
    forall c | c in cancellers :: CancellerOk(created, cancellers[c])
  }

  predicate FreshOk(created: map<string, Task>, ts: set<Task>) {
    forall t | t in ts :: FreshCopy(created, t)
  }

  predicate WellShaped(s: System) {
    var created := s.history.created;
    && QueuesOk(created, s.redis)
    && AttemptsOk(created, s.attempts)
    && RowsOk(created, s.rows)
    && CancellersOk(created, s.cancellers)
    && FreshOk(created, s.submitting)
    && FreshOk(created, s.snapshots)
  }

  /** Every task is in a queue whose derived keys are its own. */
  predicate NamesAgree(created: map<string, Task>) {
    forall id | id in created :: Agrees(created[id].queue)
  }

  // ----- queue operations -----

  lemma EnqueuedOk(created: map<string, Task>, q: Queue, t: Task)
    requires QueueOk(created, t.queue, q) && Good(created, t)
    ensures QueueOk(created, t.queue, Enqueued(q, t))
    ensures QueueOk(created, t.queue, Compensated(q, t))
  {
    hide Good, InflightName, LeaseName, Agrees;
  }

  lemma DelayedOk(created: map<string, Task>, q: Queue, t: Task, at: int)
    requires QueueOk(created, t.queue, q) && Good(created, t)
    ensures QueueOk(created, t.queue, Queues.Delayed(q, t, at))
  {
    hide Good, InflightName, LeaseName, Agrees;
  }

  lemma TakenOk(created: map<string, Task>, name: string, q: Queue, t: Task)
    requires QueueOk(created, name, q)
    ensures QueueOk(created, name, Taken(q, t))
  {
    hide Good, InflightName, LeaseName, Agrees;
  }

  lemma KeptOk(created: map<string, Task>, q: Queue, t: Task)
    requires QueueOk(created, InflightName(t.queue), q) && Good(created, t) && !Agrees(t.queue)
    ensures QueueOk(created, InflightName(t.queue), Kept(q, t))
  {
    hide Good, InflightName, LeaseName, Agrees;
  }

  lemma PoppedOk(created: map<string, Task>, name: string, q: Queue, t: Task, deadline: int)
    requires QueueOk(created, name, q) && t in q.ready && Agrees(name)
    ensures QueueOk(created, name, Popped(q, t, deadline))
  {
    hide InflightName, LeaseName, Agrees;
    NamesApart(name);
  }

  lemma LeasedOk(created: map<string, Task>, name: string, q: Queue, id: string, deadline: int)
    requires QueueOk(created, name, q) && LeaseOk(created, name, id)
    ensures QueueOk(created, name, Leased(q, id, deadline))
  {
    hide Good, InflightName, LeaseName, Agrees;
  }

  lemma UnleasedOk(created: map<string, Task>, name: string, q: Queue, id: string)
    requires QueueOk(created, name, q)
    ensures QueueOk(created, name, Unleased(q, id))
    ensures QueueOk(created, name, Acked(q, id))
    ensures QueueOk(created, name, Removed(q, id))
  {
    hide Good, InflightName, LeaseName, Agrees;
  }

  /** Nack's branch that drops the copy is never taken: the caller always has a retry left. */
  lemma NackedOk(created: map<string, Task>, q: Queue, t: Task, at: int)
    requires QueueOk(created, t.queue, q) && Good(created, t) && t.CanRetry()
    ensures QueueOk(created, t.queue, Nacked(q, t, at))
  {
    hide Good, InflightName, LeaseName, Agrees, QueueOk;
    UnleasedOk(created, t.queue, q, t.id);
    var rest := Unleased(q, t.id);
    DelayedOk(created, rest, t, at);
    ReadyOk(created, rest, t);
  }

  lemma ReadyOk(created: map<string, Task>, q: Queue, t: Task)
    requires QueueOk(created, t.queue, q) && Good(created, t)
    ensures QueueOk(created, t.queue, q.(ready := q.ready[t := ReadyScore(t)]))
  {
    hide Good, InflightName, LeaseName, Agrees;
  }

  lemma PromotedOk(created: map<string, Task>, name: string, q: Queue, ts: set<Task>)
    requires QueueOk(created, name, q) && ts <= q.delayed.Keys
    ensures QueueOk(created, name, Promoted(q, ts))
  {
    hide Good, InflightName, LeaseName, Agrees;
  }

  /** A copy that lies in a foreign hash has no lease beside it, so no reclaim call moves it. */
  lemma ReclaimedAtHome(created: map<string, Task>, name: string, q: Queue, id: string)
    requires QueueOk(created, name, q) && id in q.inflight && id in q.lease
    ensures Good(created, q.inflight[id]) && q.inflight[id].queue == name
  {
    hide InflightName, LeaseName, Agrees;
    assert InflightOk(created, name, q, id) && LeaseOk(created, name, id);
    NamesApart(q.inflight[id].queue);
  }

  lemma ReclaimedOk(created: map<string, Task>, name: string, q: Queue, ids: set<string>)
    requires QueueOk(created, name, q) && ids <= q.lease.Keys
    ensures QueueOk(created, name, Reclaimed(q, ids))
  {
    hide Good, InflightName, LeaseName, Agrees;
    forall id | id in ids && id in q.inflight ensures Good(created, q.inflight[id]) && q.inflight[id].queue == name {
      ReclaimedAtHome(created, name, q, id);
    }
  }

  // ----- steps -----

  lemma PutOk(created: map<string, Task>, redis: map<string, Queue>, name: string, q: Queue)
    requires QueuesOk(created, redis) && QueueOk(created, name, q)
    ensures QueuesOk(created, redis[name := q])
  {
  }

  lemma AttemptPut(created: map<string, Task>, attempts: map<nat, Attempt>, p: nat, a: Attempt)
    requires AttemptsOk(created, attempts)
    ensures AttemptOk(created, a) ==> AttemptsOk(created, attempts[p := a])
    ensures AttemptsOk(created, attempts - {p})
  {
    hide AttemptOk;
  }

  lemma KnownGrows(created: map<string, Task>, t: Task, u: Task)
    requires t.id !in created
    ensures Known(created, u) ==> Known(created[t.id := t], u)
    ensures Good(created, u) ==> Good(created[t.id := t], u)
  {
  }

  lemma QueueGrows(created: map<string, Task>, t: Task, name: string, q: Queue)
    requires QueueOk(created, name, q) && t.id !in created
    ensures QueueOk(created[t.id := t], name, q)
  {
    hide Good, Known, Same, InflightName, LeaseName, Agrees;
    forall u: Task ensures Good(created, u) ==> Good(created[t.id := t], u) {
      KnownGrows(created, t, u);
    }
  }

  lemma QueuesGrow(created: map<string, Task>, t: Task, redis: map<string, Queue>)
    requires QueuesOk(created, redis) && t.id !in created
    ensures QueuesOk(created[t.id := t], redis)
  {
    hide QueueOk;
    forall name | name in redis ensures QueueOk(created[t.id := t], name, redis[name]) {
      QueueGrows(created, t, name, redis[name]);
    }
  }

  lemma OthersGrow(created: map<string, Task>, t: Task, s: System)
    requires s.history.created == created && WellShaped(s) && t.id !in created
    ensures AttemptsOk(created[t.id := t], s.attempts)
    ensures RowsOk(created[t.id := t], s.rows)
    ensures CancellersOk(created[t.id := t], s.cancellers)
    ensures FreshOk(created[t.id := t], s.submitting) && FreshOk(created[t.id := t], s.snapshots)
  {
  }

  lemma CreatedGrows(s: System, t: Task, now: int)
    requires WellShaped(s) && t.id !in s.history.created
    requires t.state == Pending && t.retryCount == 0 && t.version == 1
    ensures WellShaped(DoCreate(s, t, now))
  {
    hide QueuesOk, AttemptsOk, CancellersOk;
    var created := s.history.created[t.id := t];
    QueuesGrow(s.history.created, t, s.redis);
    OthersGrow(s.history.created, t, s);
    assert RowOk(created, t.id, t);
    assert FreshCopy(created, t);
  }

  lemma WrittenOk(s: System, t: Task, fault: Fault)
    requires RowsOk(s.history.created, s.rows) && Known(s.history.created, t)
    requires RetryCountOk(t) && CountFits(t) && t.version >= 1 && t.state != Pending
    ensures RowsOk(s.history.created, Write(s, t, fault).rows)
  {
  }

  lemma FailedOnceOk(created: map<string, Task>, t: Task)
    requires Known(created, t) && !t.IsTerminal() && (t.retryCount == 0 || 0 < t.retryCount < t.maxRetries)
    ensures
      var u := FailedOnce(t);
      && Same(t, u) && u.version == t.version && RetryCountOk(u) && u.retryCount == t.retryCount + 1
      && (u.state == Failed || (u.state == Retrying && 0 < u.retryCount < u.maxRetries)) && CountFits(u)
      && (u.state == Failed <==> u.retryCount >= u.maxRetries)
  {
  }

  // Each lemma below is one event. The quantified parts stay folded and are carried by the lemmas above.

  lemma AttemptIs(s: System, p: nat)
    requires WellShaped(s) && p in s.attempts
    ensures AttemptOk(s.history.created, s.attempts[p])
  {
    hide QueuesOk, RowsOk, CancellersOk, FreshOk, AttemptOk;
  }

  lemma Moved(s: System, p: nat, a: Attempt)
    requires WellShaped(s) && p in s.attempts && AttemptOk(s.history.created, a)
    ensures WellShaped(s.(attempts := s.attempts[p := a]))
  {
    hide QueuesOk, RowsOk, CancellersOk, FreshOk, AttemptOk;
  }

  lemma Exited(s: System, p: nat)
    requires WellShaped(s) && p in s.attempts
    ensures WellShaped(Exit(s, p))
  {
    hide QueuesOk, RowsOk, CancellersOk, FreshOk, AttemptOk, Rivals;
  }

  lemma Requeued(s: System, name: string, q: Queue)
    requires WellShaped(s) && QueueOk(s.history.created, name, q)
    ensures WellShaped(OnQueue(s, name, q))
  {
    hide QueueOk, AttemptsOk, RowsOk, CancellersOk, FreshOk;
  }

  lemma QueueIs(s: System, name: string)
    requires WellShaped(s)
    ensures QueueOk(s.history.created, name, Get(s.redis, name))
  {
  }

  lemma Wrote(s: System, t: Task, fault: Fault)
    requires WellShaped(s) && Known(s.history.created, t)
    requires RetryCountOk(t) && CountFits(t) && t.version >= 1 && t.state != Pending
    ensures WellShaped(Write(s, t, fault)) && Write(s, t, fault).history.created == s.history.created
    ensures Write(s, t, fault).attempts == s.attempts && Write(s, t, fault).cancellers == s.cancellers
  {
    WrittenOk(s, t, fault);
    hide QueuesOk, AttemptsOk, RowsOk, CancellersOk, FreshOk, Known, Commits, Committed;
  }

  lemma StepScreen(s: System, p: nat, readable: bool)
    requires WellShaped(s) && p in s.attempts
    ensures s.attempts[p].phase == Loaded ==> WellShaped(DoScreen(s, p, readable))
    ensures s.attempts[p].phase == Tracked ==> WellShaped(DoRecheck(s, p, readable))
  {
    hide QueuesOk, AttemptsOk, RowsOk, CancellersOk, FreshOk, WellShaped, Good, Same, SeesTerminal;
    AttemptIs(s, p);
    var a := s.attempts[p];
    if a.phase == Loaded {
      Moved(s, p, a.(phase := if SeesTerminal(s, a.task.id, readable) then Acking else Screened));
    } else if a.phase == Tracked {
      var moved := s.(attempts := s.attempts[p := a.(phase := if SeesTerminal(s, a.task.id,
          readable) then Acking else Cleared)]);
      Moved(s, p, moved.attempts[p]);
      Relabelled(moved, DoRecheck(s, p, readable));
    }
  }

  lemma StepTrack(s: System, p: nat)
    requires WellShaped(s) && p in s.attempts && s.attempts[p].phase == Screened
    ensures WellShaped(DoTrack(s, p))
  {
    hide QueuesOk, AttemptsOk, RowsOk, CancellersOk, FreshOk, WellShaped, Good, Same, Rivals;
    AttemptIs(s, p);
    var a := s.attempts[p].(phase := Tracked, tracked := true);
    Moved(s, p, a);
    Relabelled(s.(attempts := s.attempts[p := a]), DoTrack(s, p));
  }

  lemma AttemptLease(created: map<string, Task>, a: Attempt)
    requires AttemptOk(created, a)
    ensures LeaseOk(created, a.task.queue, a.task.id)
  {
  }

  lemma StepExtend(s: System, p: nat)
    requires WellShaped(s) && p in s.attempts && s.attempts[p].phase == Fetched
    ensures WellShaped(DoExtend(s, p)) && WellShaped(Exit(DoExtend(s, p), p))
  {
    hide QueueOk, QueuesOk, AttemptsOk, RowsOk, CancellersOk, FreshOk, Good, Same, LongLease, Leased, VisibilityMs,
         WellShaped;
    var a := s.attempts[p];
    var t := a.task;
    AttemptIs(s, p);
    QueueIs(s, t.queue);
    var q := Leased(Get(s.redis, t.queue), t.id, a.fetchedAt + VisibilityMs(t.timeout));
    AttemptLease(s.history.created, a);
    LeasedOk(s.history.created, t.queue, Get(s.redis, t.queue), t.id, a.fetchedAt + VisibilityMs(t.timeout));
    Requeued(s, t.queue, q);
    Moved(s, p, a.(phase := Loaded));
    Moved(OnQueue(s, t.queue, q), p, a.(phase := Loaded));
    Exited(DoExtend(s, p), p);
  }

  lemma StepStart(s: System, p: nat, fault: Fault)
    requires WellShaped(s) && p in s.attempts && s.attempts[p].phase == Cleared
    ensures WellShaped(DoStart(s, p, fault))
  {
    hide QueuesOk, AttemptsOk, RowsOk, CancellersOk, FreshOk, WellShaped, Write, Succeeds;
    var a := s.attempts[p];
    AttemptIs(s, p);
    Wrote(s, a.task.(state := Running), fault);
    Moved(Write(s, a.task.(state := Running), fault), p, DoStart(s, p, fault).attempts[p]);
  }

  lemma StepFail(s: System, p: nat)
    requires WellShaped(s) && p in s.attempts && (s.attempts[p].phase == Cleared || s.attempts[p].phase == Handling)
    ensures WellShaped(DoFail(s, p))
  {
    hide QueuesOk, AttemptsOk, RowsOk, CancellersOk, FreshOk, FailedOnce, Good;
    var t := s.attempts[p].task;
    AttemptFacts(s.history.created, s.attempts[p]);
    AttemptIs(s, p);
    FailedOnceOk(s.history.created, t);
    Moved(s, p, s.attempts[p].(task := FailedOnce(t), phase := Settling));
  }

  /** What an attempt may do next follows from the copy it carries. */
  lemma AttemptFacts(created: map<string, Task>, a: Attempt)
    ensures AttemptOk(created, a) ==> Known(created, a.task)
    ensures AttemptOk(created, a) && (a.phase == Cleared || a.phase == Handling) ==>
              && !a.task.IsTerminal() && (a.task.retryCount == 0 || 0 < a.task.retryCount < a.task.maxRetries)
              && RetryCountOk(a.task)
              && (a.task.version == a.copy.version || a.task.version == a.copy.version + 1)
  {
  }

  lemma StepReturn(s: System, p: nat, ok: bool, shutdown: bool, readable: bool)
    requires WellShaped(s) && p in s.attempts && s.attempts[p].phase == Handling
    ensures WellShaped(DoReturn(s, p, ok, shutdown, readable))
  {
    hide QueuesOk, AttemptsOk, RowsOk, CancellersOk, FreshOk, DoFail;
    var a := s.attempts[p];
    AttemptIs(s, p);
    AttemptFacts(s.history.created, a);
    if ok {
      Moved(s, p, a.(task := a.task.(state := Completed), phase := Settling));
    } else {
      Moved(s, p, a.(phase := Acking));
      StepFail(s, p);
    }
  }

  lemma StepSettle(s: System, p: nat, fault: Fault)
    requires WellShaped(s) && p in s.attempts && s.attempts[p].phase == Settling
    ensures WellShaped(DoSettle(s, p, fault))
  {
    hide QueuesOk, AttemptsOk, RowsOk, CancellersOk, FreshOk, WellShaped, Write, Succeeds, Exit, Good;
    var a := s.attempts[p];
    AttemptIs(s, p);
    AttemptFacts(s.history.created, a);
    Wrote(s, a.task, fault);
    var w := Write(s, a.task, fault);
    Exited(w, p);
    Moved(w, p, a.(task := Bumped(a.task), phase := if a.task.state == Retrying then Nacking else Acking));
  }

  lemma StepAck(s: System, p: nat, lost: bool)
    requires WellShaped(s) && p in s.attempts
    ensures WellShaped(DoAck(s, p, lost))
  {
    hide QueueOk, QueuesOk, AttemptsOk, RowsOk, CancellersOk, FreshOk, WellShaped, Acked, Exit;
    var t := s.attempts[p].task;
    QueueIs(s, t.queue);
    UnleasedOk(s.history.created, t.queue, Get(s.redis, t.queue), t.id);
    Requeued(s, t.queue, Acked(Get(s.redis, t.queue), t.id));
    Exited(s, p);
    Exited(OnQueue(s, t.queue, Acked(Get(s.redis, t.queue), t.id)), p);
  }

  lemma Relabelled(s: System, r: System)
    requires WellShaped(s)
    requires r == s.(history := r.history, cancels := r.cancels, signals := r.signals, touched := r.touched)
    requires r.history.created == s.history.created
    ensures WellShaped(r)
  {
    hide QueuesOk, AttemptsOk, RowsOk, CancellersOk, FreshOk;
  }

  lemma StepNack(s: System, p: nat, at: int, lost: bool)
    requires WellShaped(s) && p in s.attempts && s.attempts[p].phase == Nacking
    ensures WellShaped(DoNack(s, p, at, lost))
  {
    hide QueueOk, QueuesOk, AttemptsOk, RowsOk, CancellersOk, FreshOk, WellShaped, Nacked, Exit;
    var t := s.attempts[p].task;
    AttemptIs(s, p);
    var q := Get(s.redis, t.queue);
    QueueIs(s, t.queue);
    NackedOk(s.history.created, q, t, at);
    var put := OnQueue(s, t.queue, Nacked(q, t, at));
    Requeued(s, t.queue, Nacked(q, t, at));
    Relabelled(put, Issue(put, t));
    Relabelled(put, Schedule(Issue(put, t), t, at));
    Exited(s, p);
    Exited(Issue(put, t), p);
    Exited(Schedule(Issue(put, t), t, at), p);
  }

  lemma StepCrash(s: System, node: string)
    requires WellShaped(s)
    ensures WellShaped(DoCrash(s, node))
  {
    hide QueuesOk, RowsOk, CancellersOk, FreshOk, AttemptOk;
  }

  lemma StepDeliver(s: System, node: string, id: string)
    requires WellShaped(s)
    ensures WellShaped(DoDeliver(s, node, id))
  {
    hide QueuesOk, AttemptsOk, RowsOk, CancellersOk, FreshOk, WellShaped;
    var hearing := s.history.hearing;
    var heard := s.(history := s.history.(hearing := hearing.(delivered := hearing.delivered + {(node, id)})));
    Relabelled(s, heard);
    if (node, id) in s.cancels && s.cancels[(node, id)] in s.attempts {
      var p := s.cancels[(node, id)];
      AttemptIs(s, p);
      Moved(heard, p, s.attempts[p].(cancelled := true));
    }
  }

  lemma CancellerIs(s: System, c: nat)
    requires WellShaped(s) && c in s.cancellers
    ensures CancellerOk(s.history.created, s.cancellers[c])
  {
    hide QueuesOk, AttemptsOk, RowsOk, FreshOk, CancellerOk;
  }

  lemma CancellerMoved(s: System, c: nat, x: Canceller)
    requires WellShaped(s)
    ensures CancellerOk(s.history.created, x) ==> WellShaped(s.(cancellers := s.cancellers[c := x]))
    ensures WellShaped(s.(cancellers := s.cancellers - {c}))
  {
  }

  lemma StepCancelRead(s: System, c: nat, id: string)
    requires WellShaped(s) && id in s.rows
    ensures WellShaped(DoCancelRead(s, c, id))
  {
  }

  lemma StepCancelWrite(s: System, c: nat, fault: Fault)
    requires WellShaped(s) && c in s.cancellers
    ensures WellShaped(DoCancelWrite(s, c, fault))
  {
    hide QueuesOk, AttemptsOk, RowsOk, FreshOk, CancellersOk, WellShaped, Write, Succeeds, Commits;
    var t := s.cancellers[c].task;
    CancellerIs(s, c);
    Wrote(s, t, fault);
    var w := Write(s, t, fault);
    CancellerMoved(w, c, Canceller(Bumped(t), Removing));
    var moved := w.(cancellers := DoCancelWrite(s, c, fault).cancellers);
    Relabelled(moved, DoCancelWrite(s, c, fault));
  }

  lemma StepCancelRemove(s: System, c: nat, lost: bool)
    requires WellShaped(s) && c in s.cancellers
    ensures WellShaped(DoCancelRemove(s, c, lost))
  {
    hide QueueOk, QueuesOk, AttemptsOk, RowsOk, CancellersOk, FreshOk, WellShaped, Removed;
    var t := s.cancellers[c].task;
    CancellerIs(s, c);
    QueueIs(s, t.queue);
    UnleasedOk(s.history.created, t.queue, Get(s.redis, t.queue), t.id);
    var put := OnQueue(s, t.queue, Removed(Get(s.redis, t.queue), t.id));
    Requeued(s, t.queue, Removed(Get(s.redis, t.queue), t.id));
    CancellerMoved(s, c, Canceller(t, Publishing));
    CancellerMoved(put, c, Canceller(t, Publishing));
  }

  lemma StepCancelPublish(s: System, c: nat, lost: bool)
    requires WellShaped(s) && c in s.cancellers
    ensures WellShaped(DoCancelPublish(s, c, lost))
  {
  }

  lemma FreshIs(s: System, t: Task)
    requires WellShaped(s) && (t in s.submitting || t in s.snapshots)
    ensures FreshCopy(s.history.created, t)
  {
    hide QueuesOk, AttemptsOk, RowsOk, CancellersOk, FreshCopy;
  }

  lemma FewerFresh(s: System, t: Task)
    requires WellShaped(s)
    ensures WellShaped(s.(submitting := s.submitting - {t}))
    ensures FreshCopy(s.history.created, t) ==> WellShaped(s.(snapshots := s.snapshots + {t}))
  {
    hide QueuesOk, AttemptsOk, RowsOk, CancellersOk, FreshCopy;
  }

  lemma StepEnqueue(s: System, t: Task, at: int)
    requires WellShaped(s) && t in s.submitting
    ensures WellShaped(DoEnqueue(s, t)) && WellShaped(DoEnqueueDelayed(s, t, at))
  {
    hide QueueOk, QueuesOk, AttemptsOk, RowsOk, CancellersOk, FreshOk, Enqueued, Queues.Delayed, WellShaped;
    var created, q := s.history.created, Get(s.redis, t.queue);
    FreshIs(s, t);
    QueueIs(s, t.queue);
    EnqueuedOk(created, q, t);
    DelayedOk(created, q, t, at);
    Requeued(s, t.queue, Enqueued(q, t));
    Requeued(s, t.queue, Queues.Delayed(q, t, at));
    var ready, later := OnQueue(s, t.queue, Enqueued(q, t)), OnQueue(s, t.queue, Queues.Delayed(q, t, at));
    Relabelled(ready, Issue(ready, t));
    Relabelled(later, Schedule(Issue(later, t), t, at));
    FewerFresh(Issue(ready, t), t);
    FewerFresh(Schedule(Issue(later, t), t, at), t);
  }

  lemma StepCompensate(s: System, t: Task)
    requires WellShaped(s) && t in s.snapshots
    ensures WellShaped(DoCompensate(s, t))
  {
    hide QueueOk, QueuesOk, AttemptsOk, RowsOk, CancellersOk, FreshOk, Compensated, WellShaped;
    var q := Get(s.redis, t.queue);
    FreshIs(s, t);
    QueueIs(s, t.queue);
    EnqueuedOk(s.history.created, q, t);
    Requeued(s, t.queue, Compensated(q, t));
    if t.id !in q.inflight {
      Relabelled(OnQueue(s, t.queue, Compensated(q, t)), DoCompensate(s, t));
    }
  }

  /** The dequeue script keeps the shape, wherever it writes. */
  lemma DequeuedOk(created: map<string, Task>, redis: map<string, Queue>, name: string, t: Task, deadline: int)
    requires QueuesOk(created, redis) && t in Get(redis, name).ready
    ensures QueuesOk(created, Dequeued(redis, name, t, deadline)) && Good(created, t) && t.queue == name
  {
    hide QueuesOk, Good, InflightName, LeaseName, Agrees, Popped, Leased, InflightOk, LeaseOk;
    GetOk(created, redis, name);
    if Agrees(name) {
      PoppedOk(created, name, Get(redis, name), t, deadline);
      DequeuedAgrees(redis, name, t, deadline);
      PutOk(created, redis, name, Popped(Get(redis, name), t, deadline));
    } else {
      DequeuedAstray(created, redis, name, t, deadline);
    }
  }

  lemma DequeuedAstray(created: map<string, Task>, redis: map<string, Queue>, name: string, t: Task, deadline: int)
    requires QueuesOk(created, redis) && Good(created, t) && t.queue == name && !Agrees(name)
    ensures QueuesOk(created, Dequeued(redis, name, t, deadline))
  {
    hide QueuesOk, QueueOk, InflightName, LeaseName, Agrees, Leased, Taken, Kept, Get;
    GetOk(created, redis, name);
    TakenOk(created, name, Get(redis, name), t);
    var taken := redis[name := Taken(Get(redis, name), t)];
    PutOk(created, redis, name, Taken(Get(redis, name), t));
    var inflight := InflightName(name);
    GetOk(created, taken, inflight);
    KeptOk(created, Get(taken, inflight), t);
    var held := taken[inflight := Kept(Get(taken, inflight), t)];
    PutOk(created, taken, inflight, Kept(Get(taken, inflight), t));
    var lease := LeaseName(name);
    GetOk(created, held, lease);
    LeasedOk(created, lease, Get(held, lease), t.id, deadline);
    PutOk(created, held, lease, Leased(Get(held, lease), t.id, deadline));
  }

  lemma GetOk(created: map<string, Task>, redis: map<string, Queue>, name: string)
    requires QueuesOk(created, redis)
    ensures QueueOk(created, name, Get(redis, name))
  {
    hide InflightOk, LeaseOk, Good;
  }

  lemma StepFetch(s: System, p: nat, node: string, name: string, t: Task, now: int)
    requires WellShaped(s) && p !in s.attempts && t in Get(s.redis, name).ready
    ensures WellShaped(DoFetch(s, p, node, name, t, now))
  {
    hide QueuesOk, AttemptsOk, RowsOk, CancellersOk, FreshOk, Dequeued, Good, Get;
    var created := s.history.created;
    DequeuedOk(created, s.redis, name, t, now + DEFAULT_VISIBILITY / NS_PER_MS);
    AttemptPut(created, s.attempts, p, Attempt(node, t, t, Fetched, true, false, false, now));
    GoodVersion(created, t);
  }

  lemma GoodVersion(created: map<string, Task>, t: Task)
    requires Good(created, t)
    ensures t.version >= 1
  {
  }

  lemma StepPromote(s: System, name: string, now: int, ts: seq<Task>)
    requires WellShaped(s) && Elements(ts) <= Get(s.redis, name).delayed.Keys
    ensures WellShaped(DoPromote(s, name, now, ts))
  {
    hide QueueOk, QueuesOk, AttemptsOk, RowsOk, CancellersOk, FreshOk, WellShaped, Promoted, Stamped;
    QueueIs(s, name);
    PromotedOk(s.history.created, name, Get(s.redis, name), Elements(ts));
    Requeued(s, name, Promoted(Get(s.redis, name), Elements(ts)));
    Relabelled(OnQueue(s, name, Promoted(Get(s.redis, name), Elements(ts))), DoPromote(s, name, now, ts));
  }

  lemma StepReclaim(s: System, name: string, ids: set<string>)
    requires WellShaped(s) && ids <= Get(s.redis, name).lease.Keys
    ensures WellShaped(OnQueue(s, name, Reclaimed(Get(s.redis, name), ids)))
  {
    hide QueueOk, QueuesOk, AttemptsOk, RowsOk, CancellersOk, FreshOk, WellShaped, Reclaimed;
    QueueIs(s, name);
    ReclaimedOk(s.history.created, name, Get(s.redis, name), ids);
    Requeued(s, name, Reclaimed(Get(s.redis, name), ids));
  }

  lemma StepScan(s: System, t: Task, now: int, olderThan: int)
    requires WellShaped(s) && Stale(s, t, now, olderThan)
    ensures WellShaped(DoScan(s, t, now))
  {
    hide QueuesOk, AttemptsOk, RowsOk, CancellersOk, FreshOk, WellShaped;
    RowIs(s, t.id);
    FewerFresh(s, t);
    Relabelled(s.(snapshots := s.snapshots + {t}), DoScan(s, t, now));
  }

  lemma RowIs(s: System, id: string)
    requires WellShaped(s) && id in s.rows
    ensures RowOk(s.history.created, id, s.rows[id])
  {
    hide QueuesOk, AttemptsOk, CancellersOk, FreshOk, RowOk;
  }

  lemma StepTouch(s: System, id: string, now: int)
    requires WellShaped(s)
    ensures WellShaped(DoTouch(s, id, now))
  {
    hide WellShaped;
    Relabelled(s, DoTouch(s, id, now));
  }

  lemma StepCleanup(s: System, gone: set<string>)
    requires WellShaped(s)
    ensures WellShaped(DoCleanup(s, gone))
  {
    hide QueuesOk, AttemptsOk, RowOk, CancellersOk, FreshOk;
  }

  lemma RangeElements<M>(z: map<M, int>, now: int, batch: int, r: seq<M>)
    requires IsRange(z, now, batch, r)
    ensures Elements(r) <= z.Keys
    ensures forall m | m in Elements(r) :: z[m] <= now
  {
  }

  lemma LeastIsMember<M>(z: map<M, int>, m: M)
    requires IsLeast(z, m)
    ensures m in z && forall x | x in z :: z[m] <= z[x]
  {
  }

  lemma WorkerStep(s: System, e: Event)
    requires WellShaped(s) && Enabled(s, e) && ByWorker(e)
    ensures WellShaped(Apply(s, e))
  {
    hide *;
    UnfoldWorker(s, e);
    match e
    case Fetch(p, node, name, t, now) =>
      LeastIsMember(Get(s.redis, name).ready, t);
      StepFetch(s, p, node, name, t, now);
    case Extend(p) => StepExtend(s, p);
    case ExtendFails(p, applied) => StepExtend(s, p); Exited(s, p);
    case Screen(p, readable) => StepScreen(s, p, readable);
    case Track(p) => StepTrack(s, p);
    case Recheck(p, readable) => StepScreen(s, p, readable);
    case Start(p, fault) => StepStart(s, p, fault);
    case NoHandler(p) => StepFail(s, p);
    case Return(p, ok, shutdown, readable) => StepReturn(s, p, ok, shutdown, readable);
    case Settle(p, fault) => StepSettle(s, p, fault);
    case Ack(p, lost) => StepAck(s, p, lost);
    case Nack(p, clock, jitter, lost) => StepNack(s, p, RetryAt(s.attempts[p].task, clock, jitter), lost);
  }

  lemma Step(s: System, e: Event)
    requires WellShaped(s) && Enabled(s, e)
    ensures WellShaped(Apply(s, e))
  {
    hide *;
    if ByWorker(e) {
      WorkerStep(s, e);
      return;
    }
    UnfoldOther(s, e);
    match e
    case Create(t, now) => CreatedGrows(s, t, now);
    case Enqueue(t) => StepEnqueue(s, t, 0);
    case EnqueueDelayed(t, at) => StepEnqueue(s, t, at);
    case Compensate(t) => StepCompensate(s, t);
    case Crash(node) => StepCrash(s, node);
    case Deliver(node, id) => StepDeliver(s, node, id);
    case CancelRead(c, id) => StepCancelRead(s, c, id);
    case CancelWrite(c, fault) => StepCancelWrite(s, c, fault);
    case CancelRemove(c, lost) => StepCancelRemove(s, c, lost);
    case CancelPublish(c, lost) => StepCancelPublish(s, c, lost);
    case Promote(name, now, batch, ts) =>
      RangeElements(Get(s.redis, name).delayed, now, batch, ts);
      StepPromote(s, name, now, ts);
    case Reclaim(name, now, batch, ids) =>
      RangeElements(Get(s.redis, name).lease, now, batch, ids);
      StepReclaim(s, name, Elements(ids));
    case Scan(t, now, olderThan) => StepScan(s, t, now, olderThan);
    case Touch(id, now) => StepTouch(s, id, now);
    case Cleanup(gone) => StepCleanup(s, gone);
  }

  lemma {:induction false} Always(allowed: (System, Event) -> bool, es: seq<Event>)
    requires Exec(allowed, es).Some?
    ensures WellShaped(Exec(allowed, es).value)
  {
    hide Enabled, Apply;
    if es != [] {
      var before := es[..|es| - 1];
      Always(allowed, before);
      Step(Exec(allowed, before).value, es[|es| - 1]);
    }
  }
}
