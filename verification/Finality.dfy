/** When a committed cancel is final, over everything that can still happen. The version check lets one
    kind of write through: the outcome of an attempt that began from the version the canceller read. So the
    cancelled row keeps its state in every continuation exactly if nobody holds that version any more. */
module Finality {
  import opened Entities
  import opened SortedSets
  import opened Keys
  import opened Queues
  import opened TaskTable
  import opened Timing
  import opened Protocol
  import opened Shape
  import opened Frames
  import opened OptimisticLock

  // ----- who can still overwrite a cancelled row -----

  /** A copy of the version that the canceller read. */
  predicate Behind(row: Task, t: Task) {
    t.id == row.id && t.version == row.version - 1
  }

  /** The copies of a queue that a dequeue can still return. One that lies in the hash of another queue is not
      among them. */
  function Loose(q: Queue): set<Task> {
    q.ready.Keys + q.delayed.Keys + set id | id in q.inflight && Agrees(q.inflight[id].queue) :: q.inflight[id]
  }

  /** An attempt that began from such a copy and can still write its outcome, or queue the copy again. */
  predicate Menaces(row: Task, a: Attempt) {
    && a.task.id == row.id
    && (Unwritten(a.phase) || a.phase == Nacking ==> a.task.version == row.version - 1)
    && (a.phase == Handling || a.phase == Settling ==> a.task.version == row.version)
    && a.phase != Acking
  }

  ghost predicate CopyWaits(s: System, row: Task) {
    exists name, t :: t in Loose(Get(s.redis, name)) && Behind(row, t)
  }

  /** A submitter or a compensation loop has such a copy in hand. */
  ghost predicate PoolHolds(s: System, row: Task) {
    exists t :: (t in s.submitting || t in s.snapshots) && Behind(row, t)
  }

  ghost predicate WorkerHolds(s: System, row: Task) {
    exists p :: p in s.attempts && Menaces(row, s.attempts[p])
  }

  ghost predicate Threatened(s: System, row: Task) {
    CopyWaits(s, row) || PoolHolds(s, row) || WorkerHolds(s, row)
  }

  // ----- without a threat none arises -----

  /** The row is as the cancel left it and nobody threatens it, or it was cleaned up. */
  ghost predicate Secure(s: System, row: Task) {
    && row.id in s.history.created
    && (row.id in s.rows ==> s.rows[row.id] == row && !Threatened(s, row))
  }

  /** Every loose copy was loose before or is one of those that the step brings. */
  ghost predicate LooseFrom(s: System, r: System, incoming: set<Task>) {
    forall name, t | t in Loose(Get(r.redis, name)) :: t in Loose(Get(s.redis, name)) || t in incoming
  }

  lemma LooseSame(s: System, r: System)
    requires r.redis == s.redis
    ensures LooseFrom(s, r, {})
  {
  }

  lemma LoosePut(s: System, r: System, name: string, q: Queue, incoming: set<Task>)
    requires r.redis == s.redis[name := q] && Loose(q) <= Loose(Get(s.redis, name)) + incoming
    ensures LooseFrom(s, r, incoming)
  {
    hide Loose;
    forall n, t | t in Loose(Get(r.redis, n)) ensures t in Loose(Get(s.redis, n)) || t in incoming {
      if n == name {
        assert Get(r.redis, n) == q;
      } else {
        assert Get(r.redis, n) == Get(s.redis, n);
      }
    }
  }

  lemma LooseAdded(q: Queue, t: Task, at: int)
    ensures Loose(Enqueued(q, t)) <= Loose(q) + {t}
    ensures Loose(Queues.Delayed(q, t, at)) <= Loose(q) + {t}
    ensures Loose(Compensated(q, t)) <= Loose(q) + {t}
    ensures Loose(q.(ready := q.ready[t := ReadyScore(t)])) <= Loose(q) + {t}
  {
    hide Agrees;
  }

  lemma LooseNacked(q: Queue, t: Task, at: int)
    ensures Loose(Nacked(q, t, at)) <= Loose(q) + {t}
  {
    hide Loose, Unleased, Queues.Delayed;
    var rest := Unleased(q, t.id);
    LooseLess(q, t.id, 0);
    LooseAdded(rest, t, at);
    LooseStats(rest, Nacked(q, t, at));
  }

  lemma LooseStats(q: Queue, r: Queue)
    ensures r == q.(stats := r.stats) ==> Loose(r) == Loose(q)
  {
    hide Agrees;
  }

  lemma LooseLess(q: Queue, id: string, deadline: int)
    ensures Loose(Unleased(q, id)) <= Loose(q)
    ensures Loose(Acked(q, id)) <= Loose(q) && Loose(Removed(q, id)) <= Loose(q)
    ensures Loose(Leased(q, id, deadline)) <= Loose(q)
  {
    hide Agrees;
  }

  lemma LoosePromoted(q: Queue, ts: set<Task>)
    requires ts <= q.delayed.Keys
    ensures Loose(Promoted(q, ts)) <= Loose(q)
  {
    hide Agrees;
  }

  lemma LooseReclaimed(created: map<string, Task>, name: string, q: Queue, ids: set<string>)
    requires QueueOk(created, name, q) && ids <= q.lease.Keys
    ensures Loose(Reclaimed(q, ids)) <= Loose(q)
  {
    hide Agrees, QueueOk, Good, InflightName, LeaseName;
    forall id | id in ids && id in q.inflight ensures Agrees(q.inflight[id].queue) {
      HomeAgrees(created, name, q, id);
    }
  }

  /** A copy with a lease beside it lies in its own queue, and so its name agrees. */
  lemma HomeAgrees(created: map<string, Task>, name: string, q: Queue, id: string)
    requires QueueOk(created, name, q) && id in q.inflight && (id in q.lease || q.inflight[id].queue == name)
    ensures Agrees(q.inflight[id].queue) && q.inflight[id].queue == name && q.inflight[id].id == id && id in q.lease
  {
    hide Agrees, InflightName, LeaseName, Good;
    if id in q.lease {
      ReclaimedAtHome(created, name, q, id);
    }
    NamesApart(q.inflight[id].queue);
    assert InflightOk(created, name, q, id);
  }

  lemma LooseDequeued(redis: map<string, Queue>, name: string, t: Task, deadline: int, n: string)
    ensures Loose(Get(Dequeued(redis, name, t, deadline), n)) <= Loose(Get(redis, n)) + {t}
  {
    hide InflightName, LeaseName, Agrees;
  }

  /** A step after which the row is as before, attempt p is `a` or gone, and new copies are harmless. */
  lemma SecureKept(s: System, r: System, row: Task, p: nat, a: Attempt, incoming: set<Task>)
    requires Secure(s, row) && row.id in r.history.created
    requires row.id in r.rows ==> row.id in s.rows && r.rows[row.id] == s.rows[row.id]
    requires LooseFrom(s, r, incoming)
    requires forall t | t in r.submitting || t in r.snapshots ::
               t in s.submitting || t in s.snapshots || t.id != row.id || row.id !in r.rows
    requires row.id in s.rows ==> forall t | t in incoming :: !Behind(row, t)
    requires r.attempts == s.attempts - {p} || r.attempts == s.attempts
             || (r.attempts == s.attempts[p := a] && (row.id in s.rows ==> !Menaces(row, a)))
    ensures Secure(r, row)
  {
    hide Loose, Menaces, Get;
    if row.id in r.rows {
      assert !CopyWaits(r, row) by {
        forall name, t | t in Loose(Get(r.redis, name)) ensures !Behind(row, t) {
          assert t in Loose(Get(s.redis, name)) || t in incoming;
        }
      }
    }
  }

  /** Everything else that holds the cancelled task holds another version. */
  lemma LiveIsElsewhere(s: System, row: Task, t: Task)
    requires Recorded(s) && row.state == Cancelled && row.id in s.rows && s.rows[row.id] == row
    requires t.id == row.id && Live(s.history.content, t)
    ensures t.version != row.version
  {
    hide CopiesLive, PoolsLive, AttemptsLive, CancellersLive;
  }

  lemma Harmless(s: System, row: Task, p: nat)
    requires Secure(s, row) && row.id in s.rows && p in s.attempts
    ensures !Menaces(row, s.attempts[p])
  {
    hide Menaces;
  }

  lemma HarmlessCopy(s: System, row: Task, name: string, t: Task)
    requires Secure(s, row) && row.id in s.rows && t in Loose(Get(s.redis, name))
    ensures !Behind(row, t)
  {
    hide Loose;
  }

  lemma SecureSame(s: System, r: System, row: Task)
    requires Secure(s, row) && r.redis == s.redis && r.rows == s.rows && r.history.created == s.history.created
    requires r.submitting == s.submitting && r.snapshots == s.snapshots && r.attempts == s.attempts
    ensures Secure(r, row)
  {
    hide Secure, LooseFrom;
    SecureIs(s, row);
    LooseSame(s, r);
    SecureKept(s, r, row, 0, NoAttempt, {});
  }

  lemma SecureCreate(s: System, row: Task, t: Task, now: int)
    requires Secure(s, row) && t.id !in s.history.created
    ensures Secure(DoCreate(s, t, now), row)
  {
    hide Threatened, LooseFrom;
    var r := DoCreate(s, t, now);
    LooseSame(s, r);
    SecureKept(s, r, row, 0, NoAttempt, {});
  }

  lemma SecureFetch(s: System, row: Task, p: nat, node: string, name: string, t: Task, now: int)
    requires Secure(s, row) && IsLeast(Get(s.redis, name).ready, t)
    ensures Secure(DoFetch(s, p, node, name, t, now), row)
  {
    hide Secure, Threatened, Dequeued, IsLeast;
    LeastIsMember(Get(s.redis, name).ready, t);
    var r := DoFetch(s, p, node, name, t, now);
    forall n ensures Loose(Get(r.redis, n)) <= Loose(Get(s.redis, n)) + {t} {
      LooseDequeued(s.redis, name, t, now + DEFAULT_VISIBILITY / NS_PER_MS, n);
    }
    SecureIs(s, row);
    if row.id in s.rows {
      HarmlessCopy(s, row, name, t);
    }
    SecureKept(s, r, row, p, r.attempts[p], {t});
  }

  lemma SecureIs(s: System, row: Task)
    requires Secure(s, row)
    ensures row.id in s.history.created
    ensures row.id in s.rows ==> s.rows[row.id] == row
  {
    hide Threatened;
  }

  lemma SecureMoved(s: System, r: System, row: Task, p: nat, a: Attempt)
    requires Secure(s, row) && r.redis == s.redis && r.rows == s.rows && r.history.created == s.history.created
    requires r.submitting == s.submitting && r.snapshots == s.snapshots
    requires r.attempts == s.attempts - {p} || r.attempts == s.attempts
             || (r.attempts == s.attempts[p := a] && (row.id in s.rows ==> !Menaces(row, a)))
    ensures Secure(r, row)
  {
    hide Secure, LooseFrom, Menaces;
    LooseSame(s, r);
    SecureIs(s, row);
    SecureKept(s, r, row, p, a, {});
  }

  lemma SecureCheck(s: System, row: Task, p: nat, readable: bool)
    requires Secure(s, row) && p in s.attempts
    requires s.attempts[p].phase == Loaded || s.attempts[p].phase == Screened || s.attempts[p].phase == Tracked
    ensures Secure(DoScreen(s, p, readable), row)
    ensures Secure(DoRecheck(s, p, readable), row) && Secure(DoTrack(s, p), row)
  {
    hide Secure, SeesTerminal, Rivals;
    if row.id in s.rows {
      Harmless(s, row, p);
    }
    SecureMoved(s, DoScreen(s, p, readable), row, p, DoScreen(s, p, readable).attempts[p]);
    SecureMoved(s, DoRecheck(s, p, readable), row, p, DoRecheck(s, p, readable).attempts[p]);
    SecureMoved(s, DoTrack(s, p), row, p, DoTrack(s, p).attempts[p]);
  }

  /** An Update that does not name the cancelled row's version leaves the row alone. */
  lemma SecureWrite(s: System, w: System, row: Task, t: Task, fault: Fault)
    requires Secure(s, row) && (row.id in s.rows && t.id == row.id ==> t.version != row.version)
    requires w == Write(s, t, fault)
    ensures Secure(w, row) && w == s.(rows := w.rows, history := w.history)
    ensures row.id in w.rows <==> row.id in s.rows
  {
    hide Secure, Write, LooseFrom;
    SecureIs(s, row);
    WriteFrame(s, t, fault);
    LooseSame(s, w);
    SecureKept(s, w, row, 0, NoAttempt, {});
  }

  lemma SecureStart(s: System, row: Task, p: nat, fault: Fault)
    requires Recorded(s) && Secure(s, row) && row.state == Cancelled
    requires p in s.attempts && s.attempts[p].phase == Cleared
    ensures Secure(DoStart(s, p, fault), row)
  {
    hide Secure, Recorded, Write, Live, Succeeds;
    SecureIs(s, row);
    var a, r := s.attempts[p], DoStart(s, p, fault);
    if row.id in s.rows && a.task.id == row.id {
      Harmless(s, row, p);
      AttemptIsLive(s, p);
      LiveIsElsewhere(s, row, a.task);
    }
    var w := Write(s, a.task.(state := Running), fault);
    SecureWrite(s, w, row, a.task.(state := Running), fault);
    SecureMoved(w, r, row, p, r.attempts[p]);
  }

  lemma SecureFail(s: System, row: Task, p: nat)
    requires Recorded(s) && Secure(s, row) && row.state == Cancelled && p in s.attempts
    requires s.attempts[p].phase == Cleared || s.attempts[p].phase == Handling
    ensures Secure(DoFail(s, p), row)
  {
    hide Secure, Recorded, Live, FailedOnce;
    var a := s.attempts[p];
    SecureIs(s, row);
    FailedIs(a.task);
    if row.id in s.rows && a.task.id == row.id {
      Harmless(s, row, p);
      AttemptIsLive(s, p);
      if a.phase == Cleared {
        LiveIsElsewhere(s, row, a.task);
      }
    }
    SecureMoved(s, DoFail(s, p), row, p, a.(task := FailedOnce(a.task), phase := Settling));
  }

  lemma FailedIs(t: Task)
    ensures FailedOnce(t).id == t.id && FailedOnce(t).version == t.version
  {
  }

  lemma SecureReturn(s: System, row: Task, p: nat, ok: bool, shutdown: bool, readable: bool)
    requires Recorded(s) && Secure(s, row) && row.state == Cancelled
    requires p in s.attempts && s.attempts[p].phase == Handling
    ensures Secure(DoReturn(s, p, ok, shutdown, readable), row)
  {
    hide Secure, Recorded, DoFail;
    var a := s.attempts[p];
    if row.id in s.rows {
      Harmless(s, row, p);
    }
    SecureFail(s, row, p);
    SecureMoved(s, MoveTo(s, p, Acking), row, p, a.(phase := Acking));
    var t := a.task.(state := Completed);
    SecureMoved(s, Decide(s, p, t), row, p, a.(task := t, phase := Settling));
  }

  lemma SecureSettle(s: System, row: Task, p: nat, fault: Fault)
    requires Secure(s, row) && p in s.attempts && s.attempts[p].phase == Settling
    ensures Secure(DoSettle(s, p, fault), row)
  {
    hide Secure, Write, Exit, Succeeds, Menaces, Bumped;
    SecureIs(s, row);
    var a := s.attempts[p];
    if row.id in s.rows {
      Harmless(s, row, p);
      SettlingElsewhere(row, a);
    }
    var w := Write(s, a.task, fault);
    SecureWrite(s, w, row, a.task, fault);
    SecureExit(w, row, p);
    if a.task.state == Retrying ==> Succeeds(s.rows, a.task, fault) {
      var b := a.(task := Bumped(a.task), phase := if a.task.state == Retrying then Nacking else Acking);
      if row.id in s.rows {
        SettledHarmless(s, row, a, fault);
      }
      SecureMoved(w, w.(attempts := s.attempts[p := b]), row, p, b);
    }
  }

  lemma SettlingElsewhere(row: Task, a: Attempt)
    requires a.phase == Settling && !Menaces(row, a)
    ensures a.task.id == row.id ==> a.task.version != row.version
  {
  }

  /** A retry write of another version than the row's does not succeed, so it does not lead to Nack. */
  lemma SettledHarmless(s: System, row: Task, a: Attempt, fault: Fault)
    requires row.id in s.rows && s.rows[row.id] == row && a.phase == Settling && !Menaces(row, a)
    requires a.task.state == Retrying ==> Succeeds(s.rows, a.task, fault)
    ensures !Menaces(row, a.(task := Bumped(a.task), phase := if a.task.state == Retrying then Nacking else Acking))
  {
  }

  lemma SecureExit(s: System, row: Task, p: nat)
    requires Secure(s, row) && p in s.attempts
    ensures Secure(Exit(s, p), row)
  {
    hide Secure, Rivals;
    SecureMoved(s, Exit(s, p), row, p, NoAttempt);
  }

  /** A step on one queue that changes nothing else the row depends on. */
  lemma SecureQueue(s: System, r: System, row: Task, name: string, q: Queue, incoming: set<Task>)
    requires Secure(s, row) && r == s.(redis := s.redis[name := q], history := r.history)
    requires r.history.created == s.history.created
    requires Loose(q) <= Loose(Get(s.redis, name)) + incoming
    requires row.id in s.rows ==> forall t | t in incoming :: !Behind(row, t)
    ensures Secure(r, row)
  {
    hide Secure, LooseFrom, Loose, Behind;
    SecureIs(s, row);
    LoosePut(s, r, name, q, incoming);
    SecureKept(s, r, row, 0, NoAttempt, incoming);
  }

  lemma SecureEnqueue(s: System, row: Task, t: Task, at: int)
    requires Secure(s, row) && t in s.submitting
    ensures Secure(DoEnqueue(s, t), row) && Secure(DoEnqueueDelayed(s, t, at), row)
  {
    hide Secure, Loose, Enqueued, Queues.Delayed, Get;
    var q := Get(s.redis, t.queue);
    LooseAdded(q, t, at);
    if row.id in s.rows {
      HarmlessPool(s, row, t);
    }
    var put := Issue(OnQueue(s, t.queue, Enqueued(q, t)), t);
    SecureQueue(s, put, row, t.queue, Enqueued(q, t), {t});
    SecureFewer(put, row, t);
    var later := Schedule(Issue(OnQueue(s, t.queue, Queues.Delayed(q, t, at)), t), t, at);
    SecureQueue(s, later, row, t.queue, Queues.Delayed(q, t, at), {t});
    SecureFewer(later, row, t);
  }

  lemma HarmlessPool(s: System, row: Task, t: Task)
    requires Secure(s, row) && row.id in s.rows && (t in s.submitting || t in s.snapshots)
    ensures !Behind(row, t)
  {
    hide Loose, Menaces, Behind;
  }

  lemma SecureFewer(s: System, row: Task, t: Task)
    requires Secure(s, row)
    ensures Secure(s.(submitting := s.submitting - {t}), row)
  {
    hide Secure, LooseFrom;
    var r := s.(submitting := s.submitting - {t});
    SecureIs(s, row);
    LooseSame(s, r);
    SecureKept(s, r, row, 0, NoAttempt, {});
  }

  lemma SecureCompensate(s: System, row: Task, t: Task)
    requires Secure(s, row) && t in s.snapshots
    ensures Secure(DoCompensate(s, t), row)
  {
    hide Secure, Loose, Compensated;
    var q := Get(s.redis, t.queue);
    LooseAdded(q, t, 0);
    if row.id in s.rows {
      HarmlessPool(s, row, t);
    }
    if t.id !in q.inflight {
      SecureQueue(s, DoCompensate(s, t), row, t.queue, Compensated(q, t), {t});
    }
  }

  lemma SecureExtend(s: System, row: Task, p: nat)
    requires Secure(s, row) && p in s.attempts && s.attempts[p].phase == Fetched
    ensures Secure(DoExtend(s, p), row) && Secure(Exit(DoExtend(s, p), p), row) && Secure(Exit(s, p), row)
  {
    hide Secure, Loose, Leased, LongLease, VisibilityMs, Get, Exit;
    var a := s.attempts[p];
    var q := Get(s.redis, a.task.queue);
    var leased := Leased(q, a.task.id, a.fetchedAt + VisibilityMs(a.task.timeout));
    LooseLess(q, a.task.id, a.fetchedAt + VisibilityMs(a.task.timeout));
    var put := OnQueue(s, a.task.queue, leased);
    SecureQueue(s, put, row, a.task.queue, leased, {});
    if row.id in s.rows {
      Harmless(s, row, p);
    }
    SecureMoved(if LongLease(a.task) then put else s, DoExtend(s, p), row, p, a.(phase := Loaded));
    SecureExit(DoExtend(s, p), row, p);
    SecureExit(s, row, p);
  }

  lemma SecureAck(s: System, row: Task, p: nat, lost: bool)
    requires Secure(s, row) && p in s.attempts
    ensures Secure(DoAck(s, p, lost), row)
  {
    hide Secure, Loose, Acked, Get, Exit;
    var t := s.attempts[p].task;
    var q := Get(s.redis, t.queue);
    LooseLess(q, t.id, 0);
    var put := OnQueue(s, t.queue, Acked(q, t.id));
    SecureQueue(s, put, row, t.queue, Acked(q, t.id), {});
    SecureExit(if lost then s else put, row, p);
  }

  lemma SecureNack(s: System, row: Task, p: nat, at: int, lost: bool)
    requires Secure(s, row) && p in s.attempts && s.attempts[p].phase == Nacking
    ensures Secure(DoNack(s, p, at, lost), row)
  {
    hide Secure, Loose, Nacked, Get, Exit;
    var t := s.attempts[p].task;
    var q := Get(s.redis, t.queue);
    if row.id in s.rows {
      Harmless(s, row, p);
    }
    LooseNacked(q, t, at);
    var put := Issue(OnQueue(s, t.queue, Nacked(q, t, at)), t);
    SecureQueue(s, put, row, t.queue, Nacked(q, t, at), {t});
    SecureSame(put, Schedule(put, t, at), row);
    SecureExit(if lost then s else if t.retryBackoff > 0 then Schedule(put, t, at) else put, row, p);
  }

  lemma SecureCrash(s: System, row: Task, node: string)
    requires Secure(s, row)
    ensures Secure(DoCrash(s, node), row)
  {
    hide Loose, Menaces;
    var r := DoCrash(s, node);
    if row.id in s.rows {
      assert !CopyWaits(r, row) by {
        assert forall name :: Get(r.redis, name) == Get(s.redis, name);
      }
    }
  }

  lemma SecureDeliver(s: System, row: Task, node: string, id: string)
    requires Secure(s, row)
    ensures Secure(DoDeliver(s, node, id), row)
  {
    hide Secure, DoDeliver;
    var p, b := DeliverMoves(s, node, id);
    if row.id in s.rows && p in s.attempts {
      Harmless(s, row, p);
    }
    SecureMoved(s, DoDeliver(s, node, id), row, p, b);
  }

  lemma SecureCancelWrite(s: System, row: Task, c: nat, fault: Fault)
    requires Recorded(s) && Secure(s, row) && row.state == Cancelled
    requires c in s.cancellers && s.cancellers[c].phase == Writing
    ensures Secure(DoCancelWrite(s, c, fault), row)
  {
    hide Secure, Recorded, Live, Write, Commits, Succeeds;
    SecureIs(s, row);
    var t := s.cancellers[c].task;
    CancellerIsLive(s, c);
    if row.id in s.rows && t.id == row.id {
      LiveIsElsewhere(s, row, t);
    }
    var w := Write(s, t, fault);
    SecureWrite(s, w, row, t, fault);
    SecureSame(w, DoCancelWrite(s, c, fault), row);
  }

  lemma CancellerIsLive(s: System, c: nat)
    requires Recorded(s) && CancelIn(s, c, Writing)
    ensures Live(s.history.content, s.cancellers[c].task)
  {
    hide RowsRecorded, CopiesLive, PoolsLive, AttemptsLive, Live;
  }

  lemma SecureCancelEnd(s: System, row: Task, c: nat, lost: bool)
    requires Secure(s, row) && c in s.cancellers
    ensures Secure(DoCancelRemove(s, c, lost), row) && Secure(DoCancelPublish(s, c, lost), row)
  {
    hide Secure, Loose, Removed, Get;
    var t := s.cancellers[c].task;
    var q := Get(s.redis, t.queue);
    LooseLess(q, t.id, 0);
    var put := OnQueue(s, t.queue, Removed(q, t.id));
    SecureQueue(s, put, row, t.queue, Removed(q, t.id), {});
    SecureSame(if lost then s else put, DoCancelRemove(s, c, lost), row);
    SecureSame(s, DoCancelPublish(s, c, lost), row);
  }

  lemma SecurePromote(s: System, row: Task, name: string, now: int, batch: int, ts: seq<Task>)
    requires Secure(s, row) && IsRange(Get(s.redis, name).delayed, now, batch, ts)
    ensures Secure(DoPromote(s, name, now, ts), row)
  {
    hide Secure, Loose, Promoted, IsRange, Stamped;
    var q := Get(s.redis, name);
    RangeElements(q.delayed, now, batch, ts);
    LoosePromoted(q, Elements(ts));
    SecureQueue(s, DoPromote(s, name, now, ts), row, name, Promoted(q, Elements(ts)), {});
  }

  lemma SecureReclaim(s: System, row: Task, name: string, now: int, batch: int, ids: seq<string>)
    requires WellShaped(s) && Secure(s, row) && IsRange(Get(s.redis, name).lease, now, batch, ids)
    ensures Secure(OnQueue(s, name, Reclaimed(Get(s.redis, name), Elements(ids))), row)
  {
    hide Secure, WellShaped, Loose, Reclaimed, IsRange, QueueOk;
    var q := Get(s.redis, name);
    RangeElements(q.lease, now, batch, ids);
    QueueIs(s, name);
    LooseReclaimed(s.history.created, name, q, Elements(ids));
    SecureQueue(s, OnQueue(s, name, Reclaimed(q, Elements(ids))), row, name, Reclaimed(q, Elements(ids)), {});
  }

  lemma SecureScan(s: System, row: Task, t: Task, now: int, olderThan: int)
    requires Secure(s, row) && row.state == Cancelled && Stale(s, t, now, olderThan)
    ensures Secure(DoScan(s, t, now), row)
  {
    hide Secure, LooseFrom;
    SecureIs(s, row);
    LooseSame(s, DoScan(s, t, now));
    SecureKept(s, DoScan(s, t, now), row, 0, NoAttempt, {});
  }

  lemma SecureCleanup(s: System, row: Task, gone: set<string>)
    requires Secure(s, row)
    ensures Secure(DoCleanup(s, gone), row)
  {
    hide Secure, LooseFrom;
    SecureIs(s, row);
    LooseSame(s, DoCleanup(s, gone));
    SecureKept(s, DoCleanup(s, gone), row, 0, NoAttempt, {});
  }

  lemma SecureCancelRead(s: System, row: Task, c: nat, id: string)
    requires Secure(s, row) && id in s.rows
    ensures Secure(DoCancelRead(s, c, id), row)
  {
    hide Secure;
    SecureSame(s, DoCancelRead(s, c, id), row);
  }

  lemma SecureTouch(s: System, row: Task, id: string, now: int)
    requires Secure(s, row)
    ensures Secure(DoTouch(s, id, now), row)
  {
    hide Secure;
    SecureSame(s, DoTouch(s, id, now), row);
  }

  lemma SecureWorkerStep(s: System, row: Task, e: Event)
    requires Recorded(s) && Secure(s, row) && row.state == Cancelled && Enabled(s, e) && ByWorker(e)
    ensures Secure(Apply(s, e), row)
  {
    hide *;
    UnfoldWorker(s, e);
    match e
    case Fetch(p, node, name, t, now) => SecureFetch(s, row, p, node, name, t, now);
    case Extend(p) => SecureExtend(s, row, p);
    case ExtendFails(p, applied) => SecureExtend(s, row, p);
    case Screen(p, readable) => SecureCheck(s, row, p, readable);
    case Track(p) => SecureCheck(s, row, p, true);
    case Recheck(p, readable) => SecureCheck(s, row, p, readable);
    case Start(p, fault) => SecureStart(s, row, p, fault);
    case NoHandler(p) => SecureFail(s, row, p);
    case Return(p, ok, shutdown, readable) => SecureReturn(s, row, p, ok, shutdown, readable);
    case Settle(p, fault) => SecureSettle(s, row, p, fault);
    case Ack(p, lost) => SecureAck(s, row, p, lost);
    case Nack(p, clock, jitter, lost) => SecureNack(s, row, p, RetryAt(s.attempts[p].task, clock, jitter), lost);
  }

  lemma SecureStep(s: System, row: Task, e: Event)
    requires WellShaped(s) && Recorded(s) && Secure(s, row) && row.state == Cancelled && Enabled(s, e)
    ensures Secure(Apply(s, e), row)
  {
    hide *;
    if ByWorker(e) {
      SecureWorkerStep(s, row, e);
      return;
    }
    UnfoldOther(s, e);
    match e
    case Create(t, now) => SecureCreate(s, row, t, now);
    case Enqueue(t) => SecureEnqueue(s, row, t, 0);
    case EnqueueDelayed(t, at) => SecureEnqueue(s, row, t, at);
    case Compensate(t) => SecureCompensate(s, row, t);
    case Crash(node) => SecureCrash(s, row, node);
    case CancelRead(c, id) => SecureCancelRead(s, row, c, id);
    case CancelWrite(c, fault) => SecureCancelWrite(s, row, c, fault);
    case CancelRemove(c, lost) => SecureCancelEnd(s, row, c, lost);
    case CancelPublish(c, lost) => SecureCancelEnd(s, row, c, lost);
    case Deliver(node, id) => SecureDeliver(s, row, node, id);
    case Promote(name, now, batch, ts) => SecurePromote(s, row, name, now, batch, ts);
    case Reclaim(name, now, batch, ids) => SecureReclaim(s, row, name, now, batch, ids);
    case Scan(t, now, olderThan) => SecureScan(s, row, t, now, olderThan);
    case Touch(id, now) => SecureTouch(s, row, id, now);
    case Cleanup(gone) => SecureCleanup(s, row, gone);
  }

  lemma ReachableIs(s: System)
    requires Reachable(s)
    ensures WellShaped(s) && Recorded(s)
  {
    hide Exec, WellShaped, Recorded;
    var es :| Exec(Anything, es) == Some(s);
    Always(Anything, es);
    AlwaysRecorded(Anything, es);
  }

  /** Over any continuation. */
  lemma {:induction false} StaysSecure(s: System, row: Task, es: seq<Event>, r: System)
    requires Reachable(s) && Secure(s, row) && row.state == Cancelled && Run(s, es) == Some(r)
    ensures Secure(r, row)
  {
    hide Reachable, Secure, Enabled, Apply, WellShaped, Recorded;
    if es != [] {
      var init := es[..|es| - 1];
      var before := Run(s, init).value;
      StaysSecure(s, row, init, before);
      StaysReachable(s, init, before);
      ReachableIs(before);
      SecureStep(before, row, es[|es| - 1]);
    }
  }
}
