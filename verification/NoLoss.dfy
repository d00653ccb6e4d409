/** No task is lost: in every run each created task is still pending in MySQL, or has a copy in a
    queue, or its handler's outcome was final, or its cancel was committed. This holds for a workload
    exactly when no task's payload or labels spell out the id of another task of its queue and every
    queue name is one whose keys the dequeue script derives correctly. */
module NoLoss {
  import opened Entities
  import opened SortedSets
  import opened Keys
  import opened Queues
  import opened Timing
  import opened TaskTable
  import opened Protocol
  import opened Shape
  import opened Frames

  ghost predicate Holds(q: Queue, id: string) {
    || (exists t :: t in q.ready && t.id == id)
    || (exists t :: t in q.delayed && t.id == id)
    || id in q.inflight
  }

  ghost predicate HasCopy(s: System, id: string) {
    id in s.history.created && Holds(Get(s.redis, s.history.created[id].queue), id)
  }

  predicate Done(s: System, id: string) {
    id in s.history.finished || id in s.history.cancelled
  }

  predicate Waiting(s: System, id: string) {
    id in s.rows && s.rows[id].state == Pending
  }

  ghost predicate Covered(s: System, id: string) {
    HasCopy(s, id) || Done(s, id)
  }

  ghost predicate Lost(s: System, id: string) {
    id in s.history.created && !Waiting(s, id) && !Covered(s, id)
  }

  /** No text of a task in a queue contains "id":"X" for the id X of another task of that queue. */
  predicate NoMentions(created: map<string, Task>) {
    forall x, y | x in created && y in created && x != y && created[x].queue == created[y].queue ::
      x !in created[y].mentions
  }

  predicate Tame(created: map<string, Task>) {
    NoMentions(created) && NamesAgree(created)
  }

  // ----- the invariant -----

  ghost predicate AttemptAnchored(s: System, a: Attempt) {
    && Covered(s, a.task.id)
    && (a.phase == Acking ==> Done(s, a.task.id))
    && (a.phase == Settling && a.task.IsTerminal() ==> a.task.id in s.history.finished)
  }

  ghost predicate RowAnchored(s: System, id: string)
    requires id in s.rows
  {
    && (s.rows[id].state == Pending || Covered(s, id))
    && (s.rows[id].IsTerminal() ==> Done(s, id))
  }

  ghost predicate Anchored(s: System) {
    && (forall id | id in s.history.created :: !Lost(s, id))
    && (forall p | p in s.attempts :: AttemptAnchored(s, s.attempts[p]))
    && (forall id | id in s.rows :: RowAnchored(s, id))
    && (forall c | c in s.cancellers ::
          s.cancellers[c].phase == Writing || s.cancellers[c].task.id in s.history.cancelled)
  }

  /** From s to r no task loses its cover. */
  ghost predicate Keeps(s: System, r: System) {
    && r.history.created == s.history.created
    && s.history.finished <= r.history.finished
    && s.history.cancelled <= r.history.cancelled
    && forall id | Covered(s, id) :: Covered(r, id)
  }

  /** What a step has to show about the attempts, rows and cancellers it changed. */
  lemma Advance(s: System, r: System)
    requires Anchored(s) && Keeps(s, r)
    requires forall id | id in r.rows :: (id in s.rows && r.rows[id] == s.rows[id]) || RowAnchored(r, id)
    requires forall id | id in s.rows && id !in r.rows :: s.rows[id].IsTerminal()
    requires forall p | p in r.attempts ::
               (p in s.attempts && r.attempts[p] == s.attempts[p]) || AttemptAnchored(r, r.attempts[p])
    requires forall c | c in r.cancellers ::
               || (c in s.cancellers && r.cancellers[c] == s.cancellers[c])
               || r.cancellers[c].phase == Writing || r.cancellers[c].task.id in r.history.cancelled
    ensures Anchored(r)
  {
    hide HasCopy;
  }

  lemma Quiet(s: System, r: System)
    requires r.redis == s.redis && r.history.created == s.history.created
    requires s.history.finished <= r.history.finished && s.history.cancelled <= r.history.cancelled
    ensures Keeps(s, r)
  {
    hide Holds;
  }

  /** One queue replaced by another that still holds every task, except tasks that are done. */
  lemma Swapped(s: System, r: System, name: string, q: Queue)
    requires r.redis == s.redis[name := q] && r.history.created == s.history.created
    requires s.history.finished <= r.history.finished && s.history.cancelled <= r.history.cancelled
    requires forall id | id in s.history.created && s.history.created[id].queue == name
                         && Holds(Get(s.redis, name), id) ::
               Holds(q, id) || Done(r, id)
    ensures Keeps(s, r)
  {
    hide Holds;
  }

  // ----- queue operations -----

  predicate Keyed(q: Queue) {
    forall id | id in q.inflight :: q.inflight[id].id == id
  }

  lemma QueueIsKeyed(s: System, name: string)
    requires WellShaped(s)
    ensures Keyed(Get(s.redis, name))
  {
    hide AttemptsOk, RowsOk, CancellersOk, FreshOk, Good;
  }

  lemma AddedHolds(q: Queue, t: Task, at: int, id: string, x: string, d: int)
    requires Holds(q, id) || id == t.id
    ensures Holds(Enqueued(q, t), id) && Holds(Queues.Delayed(q, t, at), id) && Holds(Compensated(q, t), id)
    ensures Holds(q, id) ==> Holds(Leased(q, x, d), id)
  {
  }

  lemma PoppedHolds(q: Queue, t: Task, deadline: int, id: string)
    requires Holds(q, id)
    ensures Holds(Popped(q, t, deadline), id)
  {
  }

  lemma UnleasedHolds(q: Queue, x: string, id: string)
    requires Holds(q, id) && id != x
    ensures Holds(Unleased(q, x), id) && Holds(Acked(q, x), id)
  {
  }

  lemma NackedHolds(q: Queue, t: Task, at: int, id: string)
    requires Holds(q, id) || id == t.id
    requires t.CanRetry()
    ensures Holds(Nacked(q, t, at), id)
  {
  }

  lemma PromotedHolds(q: Queue, ts: set<Task>, id: string)
    requires Holds(q, id)
    ensures Holds(Promoted(q, ts), id)
  {
  }

  lemma ReclaimedHolds(q: Queue, ids: set<string>, id: string)
    requires Holds(q, id) && Keyed(q)
    ensures Holds(Reclaimed(q, ids), id)
  {
  }

  lemma RemovedHolds(q: Queue, x: string, id: string)
    requires Holds(q, id) && id != x
    requires forall t | t in q.ready && t.id == id :: x !in t.mentions
    requires forall t | t in q.delayed && t.id == id :: x !in t.mentions
    ensures Holds(Removed(q, x), id)
  {
  }

  // ----- steps -----

  lemma AttemptIsAnchored(s: System, p: nat)
    requires Anchored(s) && p in s.attempts
    ensures AttemptAnchored(s, s.attempts[p])
  {
    hide AttemptAnchored, RowAnchored, Lost;
  }

  lemma StillCovered(s: System, t: Task, now: int, id: string)
    requires Covered(s, id) && t.id !in s.history.created
    ensures Covered(DoCreate(s, t, now), id)
  {
    hide Holds;
  }

  lemma AnchoredCreate(s: System, t: Task, now: int)
    requires WellShaped(s) && Anchored(s) && t.id !in s.history.created && t.state == Pending
    ensures Anchored(DoCreate(s, t, now))
  {
    hide QueuesOk, AttemptsOk, CancellersOk, FreshOk, RowsOk, Covered;
    var r := DoCreate(s, t, now);
    forall id | Covered(s, id) ensures Covered(r, id) {
      StillCovered(s, t, now, id);
    }
    forall p | p in s.attempts ensures AttemptAnchored(r, s.attempts[p]) {
      AttemptIsAnchored(s, p);
    }
  }

  /** An attempt moves on without touching a store. */
  lemma AnchoredMove(s: System, r: System, p: nat)
    requires Anchored(s) && p in s.attempts
    requires r.redis == s.redis && r.rows == s.rows && r.cancellers == s.cancellers
    requires r.history.created == s.history.created && r.history.finished == s.history.finished
    requires r.history.cancelled == s.history.cancelled
    requires r.attempts.Keys == s.attempts.Keys
    requires forall x | x in s.attempts && x != p :: r.attempts[x] == s.attempts[x]
    requires r.attempts[p].task.id == s.attempts[p].task.id
    requires r.attempts[p].phase == Acking ==> s.attempts[p].phase == Acking || Done(s, s.attempts[p].task.id)
    requires r.attempts[p].phase == Settling ==>
               s.attempts[p].phase == Settling && r.attempts[p].task == s.attempts[p].task
    ensures Anchored(r)
  {
    hide HasCopy, Lost, RowAnchored;
    AttemptIsAnchored(s, p);
    Quiet(s, r);
    Advance(s, r);
  }

  lemma TerminalIsDone(s: System, id: string)
    requires Anchored(s) && id in s.rows && s.rows[id].IsTerminal()
    ensures Done(s, id)
  {
    hide AttemptAnchored, Lost, Covered, Done;
  }

  lemma AnchoredScreen(s: System, p: nat, readable: bool)
    requires Anchored(s) && p in s.attempts
    ensures Anchored(DoScreen(s, p, readable))
  {
    hide Anchored, Done;
    if SeesTerminal(s, s.attempts[p].task.id, readable) {
      TerminalIsDone(s, s.attempts[p].task.id);
    }
    AnchoredMove(s, DoScreen(s, p, readable), p);
  }

  lemma AnchoredRecheck(s: System, p: nat, readable: bool)
    requires Anchored(s) && p in s.attempts
    ensures Anchored(DoRecheck(s, p, readable))
  {
    hide Anchored, Done;
    if SeesTerminal(s, s.attempts[p].task.id, readable) {
      TerminalIsDone(s, s.attempts[p].task.id);
    }
    AnchoredMove(s, DoRecheck(s, p, readable), p);
  }

  lemma AnchoredTrack(s: System, p: nat)
    requires Anchored(s) && p in s.attempts
    ensures Anchored(DoTrack(s, p))
  {
    hide Anchored, Done;
    AnchoredMove(s, DoTrack(s, p), p);
  }

  lemma AnchoredDeliver(s: System, node: string, id: string)
    requires Anchored(s)
    ensures Anchored(DoDeliver(s, node, id))
  {
    hide HasCopy, Lost, RowAnchored;
    var r := DoDeliver(s, node, id);
    if (node, id) in s.cancels && s.cancels[(node, id)] in s.attempts {
      AttemptIsAnchored(s, s.cancels[(node, id)]);
      AnchoredMove(s, r, s.cancels[(node, id)]);
    } else {
      Quiet(s, r);
      Advance(s, r);
    }
  }

  /** Attempts that end, and steps that change neither store nor attempts. */
  lemma AnchoredFewer(s: System, r: System)
    requires Anchored(s) && r.redis == s.redis && r.rows == s.rows
    requires r.history.created == s.history.created && r.history.finished == s.history.finished
    requires r.history.cancelled == s.history.cancelled
    requires forall p | p in r.attempts :: p in s.attempts && r.attempts[p] == s.attempts[p]
    requires forall c | c in r.cancellers ::
               (c in s.cancellers && r.cancellers[c] == s.cancellers[c]) || r.cancellers[c].phase == Writing
    ensures Anchored(r)
  {
    hide HasCopy, Lost, RowAnchored, AttemptAnchored;
    Quiet(s, r);
    Advance(s, r);
  }

  /** Replacing one queue by another that still holds every task, except tasks that are done. */
  lemma AnchoredPut(s: System, name: string, q: Queue)
    requires Anchored(s)
    requires forall id | id in s.history.created && s.history.created[id].queue == name
                         && Holds(Get(s.redis, name), id) ::
               Holds(q, id) || Done(s, id)
    ensures Anchored(OnQueue(s, name, q))
  {
    hide Holds, Lost, RowAnchored, HasCopy;
    var r := OnQueue(s, name, q);
    Swapped(s, r, name, q);
    Advance(s, r);
  }

  /** Changes that the invariant does not look at. */
  lemma AnchoredSame(s: System, r: System)
    requires Anchored(s) && r.redis == s.redis && r.rows == s.rows
    requires r.attempts == s.attempts && r.cancellers == s.cancellers
    requires r.history.created == s.history.created && r.history.finished == s.history.finished
    requires r.history.cancelled == s.history.cancelled
    ensures Anchored(r)
  {
    hide Anchored;
    AnchoredFewer(s, r);
  }

  lemma AnchoredExit(s: System, p: nat)
    requires Anchored(s) && p in s.attempts
    ensures Anchored(Exit(s, p))
  {
    hide Anchored;
    AnchoredFewer(s, Exit(s, p));
  }

  lemma AnchoredExtend(s: System, p: nat)
    requires Anchored(s) && p in s.attempts
    ensures Anchored(DoExtend(s, p)) && Anchored(Exit(DoExtend(s, p), p)) && Anchored(Exit(s, p))
  {
    hide Holds, Anchored, LongLease, VisibilityMs, Done, Leased, Exit;
    var a := s.attempts[p];
    var t := a.task;
    var q := Get(s.redis, t.queue);
    var deadline := a.fetchedAt + VisibilityMs(t.timeout);
    forall id | Holds(q, id) ensures Holds(Leased(q, t.id, deadline), id) {
      AddedHolds(q, t, 0, id, t.id, deadline);
    }
    AnchoredPut(s, t.queue, Leased(q, t.id, deadline));
    AnchoredMove(OnQueue(s, t.queue, Leased(q, t.id, deadline)), MoveTo(OnQueue(s, t.queue, Leased(q, t.id, deadline)),
        p, Loaded), p);
    AnchoredMove(s, MoveTo(s, p, Loaded), p);
    AnchoredExit(DoExtend(s, p), p);
    AnchoredExit(s, p);
  }

  lemma AnchoredAck(s: System, p: nat, lost: bool)
    requires Anchored(s) && p in s.attempts && s.attempts[p].phase == Acking
    ensures Anchored(DoAck(s, p, lost))
  {
    hide Holds, Anchored, Acked, Exit;
    AttemptIsAnchored(s, p);
    var t := s.attempts[p].task;
    var q := Get(s.redis, t.queue);
    forall id | Holds(q, id) ensures Holds(Acked(q, t.id), id) || Done(s, id) {
      if id != t.id {
        UnleasedHolds(q, t.id, id);
      }
    }
    AnchoredPut(s, t.queue, Acked(q, t.id));
    AnchoredExit(OnQueue(s, t.queue, Acked(q, t.id)), p);
    AnchoredExit(s, p);
  }

  lemma NackingCanRetry(s: System, p: nat)
    requires WellShaped(s) && p in s.attempts
    ensures s.attempts[p].phase == Nacking ==> s.attempts[p].task.CanRetry()
    ensures s.attempts[p].phase == Settling ==> s.attempts[p].task.state == Retrying || s.attempts[p].task.IsTerminal()
  {
    hide QueuesOk, RowsOk, CancellersOk, FreshOk, Good, Same;
  }

  lemma AnchoredNack(s: System, p: nat, at: int, lost: bool)
    requires Anchored(s) && p in s.attempts && s.attempts[p].task.CanRetry()
    ensures Anchored(DoNack(s, p, at, lost))
  {
    hide Holds, Anchored, Nacked, Done, Exit;
    var t := s.attempts[p].task;
    var q := Get(s.redis, t.queue);
    forall id | Holds(q, id) ensures Holds(Nacked(q, t, at), id) {
      NackedHolds(q, t, at, id);
    }
    var put := OnQueue(s, t.queue, Nacked(q, t, at));
    AnchoredPut(s, t.queue, Nacked(q, t, at));
    AnchoredSame(put, Issue(put, t));
    AnchoredSame(put, Schedule(Issue(put, t), t, at));
    AnchoredExit(s, p);
    AnchoredExit(Issue(put, t), p);
    AnchoredExit(Schedule(Issue(put, t), t, at), p);
  }

  lemma AnchoredReclaim(s: System, name: string, ids: set<string>)
    requires WellShaped(s) && Anchored(s)
    ensures Anchored(OnQueue(s, name, Reclaimed(Get(s.redis, name), ids)))
  {
    hide Holds, Anchored, WellShaped, Reclaimed, Done, Keyed;
    var q := Get(s.redis, name);
    QueueIsKeyed(s, name);
    forall id | Holds(q, id) ensures Holds(Reclaimed(q, ids), id) {
      ReclaimedHolds(q, ids, id);
    }
    AnchoredPut(s, name, Reclaimed(q, ids));
  }

  lemma AnchoredPromote(s: System, name: string, now: int, ts: seq<Task>)
    requires Anchored(s)
    ensures Anchored(DoPromote(s, name, now, ts))
  {
    hide Holds, Anchored, Promoted, Done;
    var q := Get(s.redis, name);
    forall id | Holds(q, id) ensures Holds(Promoted(q, Elements(ts)), id) {
      PromotedHolds(q, Elements(ts), id);
    }
    AnchoredPut(s, name, Promoted(q, Elements(ts)));
    AnchoredSame(OnQueue(s, name, Promoted(q, Elements(ts))), DoPromote(s, name, now, ts));
  }

  lemma AnchoredEnqueue(s: System, t: Task, at: int)
    requires Anchored(s)
    ensures Anchored(DoEnqueue(s, t)) && Anchored(DoEnqueueDelayed(s, t, at)) && Anchored(DoCompensate(s, t))
  {
    hide Holds, Anchored, Enqueued, Queues.Delayed, Compensated, Done;
    var q := Get(s.redis, t.queue);
    forall id | Holds(q, id)
      ensures Holds(Enqueued(q, t), id) && Holds(Queues.Delayed(q, t, at), id) && Holds(Compensated(q, t), id)
    {
      AddedHolds(q, t, at, id, t.id, 0);
    }
    AnchoredPut(s, t.queue, Enqueued(q, t));
    AnchoredPut(s, t.queue, Queues.Delayed(q, t, at));
    AnchoredPut(s, t.queue, Compensated(q, t));
    AnchoredSame(OnQueue(s, t.queue, Enqueued(q, t)), DoEnqueue(s, t));
    AnchoredSame(OnQueue(s, t.queue, Queues.Delayed(q, t, at)), DoEnqueueDelayed(s, t, at));
    if t.id !in q.inflight {
      AnchoredSame(OnQueue(s, t.queue, Compensated(q, t)), DoCompensate(s, t));
    }
  }

  lemma ReadyCopyIs(s: System, name: string, t: Task)
    requires WellShaped(s) && t in Get(s.redis, name).ready
    ensures Good(s.history.created, t) && t.queue == name
  {
    hide AttemptsOk, RowsOk, CancellersOk, FreshOk, Good;
  }

  lemma AnchoredFetch(s: System, p: nat, node: string, name: string, t: Task, now: int)
    requires WellShaped(s) && Anchored(s) && p !in s.attempts
    requires t in Get(s.redis, name).ready && NamesAgree(s.history.created)
    ensures Anchored(DoFetch(s, p, node, name, t, now))
  {
    hide Holds, Lost, RowAnchored, WellShaped, Popped, Anchored, Dequeued, Agrees;
    var q, r := Get(s.redis, name), DoFetch(s, p, node, name, t, now);
    var deadline := now + DEFAULT_VISIBILITY / NS_PER_MS;
    ReadyCopyIs(s, name, t);
    HeldInReady(q, t);
    DequeuedAgrees(s.redis, name, t, deadline);
    forall id | Holds(q, id) ensures Holds(Popped(q, t, deadline), id) {
      PoppedHolds(q, t, deadline, id);
    }
    Swapped(s, r, name, Popped(q, t, deadline));
    assert AttemptAnchored(r, r.attempts[p]);
    FetchAdvance(s, r, p);
  }

  lemma HeldInReady(q: Queue, t: Task)
    requires t in q.ready
    ensures Holds(q, t.id)
  {
  }

  lemma FetchAdvance(s: System, r: System, p: nat)
    requires Anchored(s) && Keeps(s, r) && r.rows == s.rows && r.cancellers == s.cancellers
    requires p in r.attempts && r.attempts - {p} == s.attempts - {p} && AttemptAnchored(r, r.attempts[p])
    ensures Anchored(r)
  {
    hide Lost, RowAnchored, AttemptAnchored, Covered;
    forall x | x in r.attempts && x != p ensures x in s.attempts && r.attempts[x] == s.attempts[x] {
      assert x in r.attempts - {p};
    }
    Advance(s, r);
  }

  lemma AnchoredRemove(s: System, c: nat, lost: bool)
    requires WellShaped(s) && Anchored(s) && NoMentions(s.history.created)
    requires c in s.cancellers && s.cancellers[c].phase == Removing
    ensures Anchored(DoCancelRemove(s, c, lost))
  {
    hide Holds, Anchored, WellShaped, Removed;
    var t := s.cancellers[c].task;
    var q := Get(s.redis, t.queue);
    CancellerIs(s, c);
    CancellerIsDone(s, c);
    forall id | id in s.history.created && s.history.created[id].queue == t.queue && Holds(q, id)
      ensures Holds(Removed(q, t.id), id) || Done(s, id)
    {
      if id != t.id {
        NotMentioned(s, t.queue, t.id, id);
        RemovedHolds(q, t.id, id);
      }
    }
    AnchoredPut(s, t.queue, Removed(q, t.id));
    AnchoredCanceller(OnQueue(s, t.queue, Removed(q, t.id)), DoCancelRemove(s, c, false), c);
    AnchoredCanceller(s, DoCancelRemove(s, c, true), c);
  }

  lemma CancellerIsDone(s: System, c: nat)
    requires Anchored(s) && c in s.cancellers
    ensures s.cancellers[c].phase != Writing ==> s.cancellers[c].task.id in s.history.cancelled
  {
    hide Lost, RowAnchored, AttemptAnchored, Covered;
  }

  lemma NotMentioned(s: System, name: string, x: string, id: string)
    requires WellShaped(s) && NoMentions(s.history.created)
    requires x in s.history.created && s.history.created[x].queue == name && x != id
    ensures forall t | t in Get(s.redis, name).ready && t.id == id :: x !in t.mentions
    ensures forall t | t in Get(s.redis, name).delayed && t.id == id :: x !in t.mentions
  {
    hide AttemptsOk, RowsOk, CancellersOk, FreshOk;
  }

  /** A canceller moves on, or gives up, without touching a store. */
  lemma AnchoredCanceller(s: System, r: System, c: nat)
    requires Anchored(s)
    requires r.redis == s.redis && r.rows == s.rows && r.attempts == s.attempts
    requires r.history == s.history
    requires r.cancellers - {c} == s.cancellers - {c}
    requires c in r.cancellers ==> r.cancellers[c].phase == Writing || r.cancellers[c].task.id in s.history.cancelled
    ensures Anchored(r)
  {
    hide HasCopy, Lost, RowAnchored, AttemptAnchored;
    Quiet(s, r);
    forall x | x in r.cancellers && x != c ensures x in s.cancellers && r.cancellers[x] == s.cancellers[x] {
      assert x in r.cancellers - {c};
    }
    Advance(s, r);
  }

  /** A committed write keeps the anchor if the task is covered and a terminal state is deserved. */
  lemma AnchoredWrite(s: System, t: Task, fault: Fault, r: System)
    requires Anchored(s) && Covered(r, t.id) && (t.IsTerminal() ==> Done(r, t.id)) && t.state != Pending
    requires r.rows == Write(s, t, fault).rows && r.redis == s.redis
    requires r.history.created == s.history.created
    requires s.history.finished <= r.history.finished && s.history.cancelled <= r.history.cancelled
    requires forall p | p in r.attempts ::
               (p in s.attempts && r.attempts[p] == s.attempts[p]) || AttemptAnchored(r, r.attempts[p])
    requires forall c | c in r.cancellers ::
               || (c in s.cancellers && r.cancellers[c] == s.cancellers[c])
               || r.cancellers[c].task.id in r.history.cancelled
    ensures Anchored(r)
  {
    hide HasCopy, Lost, AttemptAnchored, Write, LockHolds;
    WriteFrame(s, t, fault);
    Quiet(s, r);
    Advance(s, r);
  }

  lemma AnchoredStart(s: System, p: nat, fault: Fault)
    requires Anchored(s) && p in s.attempts && s.attempts[p].phase == Cleared
    ensures Anchored(DoStart(s, p, fault))
  {
    hide Anchored, HasCopy, Write, Succeeds, LockHolds;
    AttemptIsAnchored(s, p);
    WriteFrame(s, s.attempts[p].task.(state := Running), fault);
    var r := DoStart(s, p, fault);
    Quiet(s, r);
    AnchoredWrite(s, s.attempts[p].task.(state := Running), fault, r);
  }

  lemma AnchoredDecide(s: System, p: nat, t: Task)
    requires Anchored(s) && p in s.attempts && t.id == s.attempts[p].task.id
    ensures Anchored(Decide(s, p, t)) && Anchored(CountFailure(Decide(s, p, t), t.id))
  {
    hide HasCopy, Lost, RowAnchored;
    AttemptIsAnchored(s, p);
    Quiet(s, Decide(s, p, t));
    Advance(s, Decide(s, p, t));
    AnchoredFewer(Decide(s, p, t), CountFailure(Decide(s, p, t), t.id));
  }

  lemma AnchoredReturn(s: System, p: nat, ok: bool, shutdown: bool, readable: bool)
    requires Anchored(s) && p in s.attempts
    ensures Anchored(DoReturn(s, p, ok, shutdown, readable)) && Anchored(DoFail(s, p))
  {
    hide Anchored, Done, Decide, CountFailure;
    var a := s.attempts[p];
    AnchoredDecide(s, p, a.task.(state := Completed));
    AnchoredDecide(s, p, FailedOnce(a.task));
    if a.task.id in s.rows && s.rows[a.task.id].state == Cancelled {
      TerminalIsDone(s, a.task.id);
      AnchoredMove(s, MoveTo(s, p, Acking), p);
    }
  }

  lemma AnchoredSettle(s: System, p: nat, fault: Fault)
    requires Anchored(s) && p in s.attempts && s.attempts[p].phase == Settling
    requires s.attempts[p].task.state == Retrying || s.attempts[p].task.IsTerminal()
    ensures Anchored(DoSettle(s, p, fault))
  {
    hide Anchored, Covered, Write, Succeeds, LockHolds, Exit;
    AttemptIsAnchored(s, p);
    var a := s.attempts[p];
    var w := Write(s, a.task, fault);
    WriteFrame(s, a.task, fault);
    Quiet(s, w);
    AnchoredWrite(s, a.task, fault, w);
    AnchoredExit(w, p);
    var next := if a.task.state == Retrying then Nacking else Acking;
    AnchoredMove(w, w.(attempts := s.attempts[p := a.(task := Bumped(a.task), phase := next)]), p);
  }

  lemma AnchoredCancelWrite(s: System, c: nat, fault: Fault)
    requires Anchored(s) && c in s.cancellers && s.cancellers[c].phase == Writing
    requires s.cancellers[c].task.state == Cancelled
    ensures Anchored(DoCancelWrite(s, c, fault))
  {
    hide Anchored, HasCopy, Committed;
    var t := s.cancellers[c].task;
    var r := DoCancelWrite(s, c, fault);
    if Commits(s.rows, t, fault) {
      AnchoredWrite(s, t, fault, r);
    } else {
      AnchoredFewer(s, r);
    }
  }

  lemma AnchoredCleanup(s: System, gone: set<string>)
    requires Anchored(s) && gone <= s.rows.Keys && forall id | id in gone :: s.rows[id].IsTerminal()
    ensures Anchored(DoCleanup(s, gone))
  {
    hide HasCopy, Lost, AttemptAnchored, RowAnchored;
    Quiet(s, DoCleanup(s, gone));
    Advance(s, DoCleanup(s, gone));
  }

  lemma TameBefore(created: map<string, Task>, t: Task)
    requires t.id !in created && Tame(created[t.id := t])
    ensures Tame(created)
  {
    hide Agrees;
    forall x | x in created ensures created[t.id := t][x] == created[x] {
    }
  }

  lemma TameMeans(created: map<string, Task>)
    requires Tame(created)
    ensures NoMentions(created) && NamesAgree(created)
  {
  }

  lemma AnchoredWorkerStep(s: System, e: Event)
    requires WellShaped(s) && Anchored(s) && Enabled(s, e) && ByWorker(e)
    requires Tame(s.history.created)
    ensures Anchored(Apply(s, e))
  {
    hide *;
    UnfoldWorker(s, e);
    TameMeans(s.history.created);
    match e
    case Fetch(p, node, name, t, now) =>
      LeastIsMember(Get(s.redis, name).ready, t);
      AnchoredFetch(s, p, node, name, t, now);
    case Extend(p) => AnchoredExtend(s, p);
    case ExtendFails(p, applied) => AnchoredExtend(s, p);
    case Screen(p, readable) => AnchoredScreen(s, p, readable);
    case Track(p) => AnchoredTrack(s, p);
    case Recheck(p, readable) => AnchoredRecheck(s, p, readable);
    case Start(p, fault) => AnchoredStart(s, p, fault);
    case NoHandler(p) => AnchoredReturn(s, p, false, false, false);
    case Return(p, ok, shutdown, readable) => AnchoredReturn(s, p, ok, shutdown, readable);
    case Settle(p, fault) => NackingCanRetry(s, p); AnchoredSettle(s, p, fault);
    case Ack(p, lost) => AnchoredAck(s, p, lost);
    case Nack(p, clock, jitter, lost) =>
      NackingCanRetry(s, p);
      AnchoredNack(s, p, RetryAt(s.attempts[p].task, clock, jitter), lost);
  }

  lemma AnchoredStep(s: System, e: Event)
    requires WellShaped(s) && Anchored(s) && Enabled(s, e)
    requires Tame(s.history.created)
    ensures Anchored(Apply(s, e))
  {
    hide *;
    if ByWorker(e) {
      AnchoredWorkerStep(s, e);
      return;
    }
    UnfoldOther(s, e);
    TameMeans(s.history.created);
    match e
    case Create(t, now) => AnchoredCreate(s, t, now);
    case Enqueue(t) => AnchoredEnqueue(s, t, 0);
    case EnqueueDelayed(t, at) => AnchoredEnqueue(s, t, at);
    case Compensate(t) => AnchoredEnqueue(s, t, 0);
    case Crash(node) => AnchoredCrash(s, node);
    case Deliver(node, id) => AnchoredDeliver(s, node, id);
    case CancelRead(c, id) => AnchoredCancelRead(s, c, id);
    case CancelWrite(c, fault) => WritingCancels(s, c); AnchoredCancelWrite(s, c, fault);
    case CancelRemove(c, lost) => AnchoredRemove(s, c, lost);
    case CancelPublish(c, lost) => AnchoredCancelPublish(s, c, lost);
    case Promote(name, now, batch, ts) => AnchoredPromote(s, name, now, ts);
    case Reclaim(name, now, batch, ids) => AnchoredReclaim(s, name, Elements(ids));
    case Scan(t, now, olderThan) => AnchoredScan(s, t, now);
    case Touch(id, now) => AnchoredTouch(s, id, now);
    case Cleanup(gone) => AnchoredCleanup(s, gone);
  }

  lemma AnchoredCrash(s: System, node: string)
    requires Anchored(s)
    ensures Anchored(DoCrash(s, node))
  {
    hide Anchored;
    AnchoredFewer(s, DoCrash(s, node));
  }

  lemma AnchoredCancelRead(s: System, c: nat, id: string)
    requires Anchored(s) && id in s.rows
    ensures Anchored(DoCancelRead(s, c, id))
  {
    hide Anchored;
    AnchoredFewer(s, DoCancelRead(s, c, id));
  }

  lemma AnchoredCancelPublish(s: System, c: nat, lost: bool)
    requires Anchored(s) && c in s.cancellers
    ensures Anchored(DoCancelPublish(s, c, lost))
  {
  }

  lemma AnchoredScan(s: System, t: Task, now: int)
    requires Anchored(s)
    ensures Anchored(DoScan(s, t, now))
  {
    hide Anchored;
    AnchoredSame(s, DoScan(s, t, now));
  }

  lemma AnchoredTouch(s: System, id: string, now: int)
    requires Anchored(s)
    ensures Anchored(DoTouch(s, id, now))
  {
    hide Anchored;
    AnchoredSame(s, DoTouch(s, id, now));
  }

  lemma WritingCancels(s: System, c: nat)
    requires WellShaped(s) && c in s.cancellers
    ensures s.cancellers[c].task.state == Cancelled
  {
  }

  lemma CreatedBefore(s: System, e: Event)
    requires Enabled(s, e) && Tame(Apply(s, e).history.created)
    ensures Tame(s.history.created)
  {
    hide *;
    CreatedByCreate(s, e);
    if e.Create? {
      CreatesOnce(s, e);
      TameBefore(s.history.created, e.t);
    }
  }

  lemma {:induction false} AlwaysAnchored(allowed: (System, Event) -> bool, es: seq<Event>)
    requires Exec(allowed, es).Some? && Tame(Exec(allowed, es).value.history.created)
    ensures Anchored(Exec(allowed, es).value)
  {
    hide Enabled, Apply, Tame;
    if es != [] {
      var before := es[..|es| - 1];
      CreatedBefore(Exec(allowed, before).value, es[|es| - 1]);
      AlwaysAnchored(allowed, before);
      Always(allowed, before);
      AnchoredStep(Exec(allowed, before).value, es[|es| - 1]);
    }
  }

  /** No task is lost in any run whose tasks mention no other task of their queue and whose queue names
      agree with their derived keys. */
  lemma NothingIsLost(s: System, id: string)
    requires Reachable(s) && Tame(s.history.created) && id in s.history.created
    ensures !Lost(s, id)
  {
    hide AttemptAnchored, RowAnchored, Lost, Tame;
    var es :| Exec(Anything, es) == Some(s);
    AlwaysAnchored(Anything, es);
  }
}
