/** What each worker and canceller event does to the stores and to the attempt, for the code that makes
    the calls. */
module Effects {
  import opened Entities
  import opened SortedSets
  import opened Queues
  import opened Timing
  import opened TaskTable
  import opened Protocol
  import opened Frames

  predicate SameStores(s: System, r: System) {
    r.redis == s.redis && r.rows == s.rows && r.touched == s.touched
  }

  lemma WriteIs(s: System, t: Task, fault: Fault)
    ensures Write(s, t, fault).rows == AfterUpdate(s.rows, t, fault)
  {
    hide Committed, LockHolds;
  }

  lemma AtFetch(s: System, p: nat, node: string, name: string, t: Task, now: int)
    requires p !in s.attempts && IsLeast(Get(s.redis, name).ready, t)
    ensures
      var e := Fetch(p, node, name, t, now);
      var r := Apply(s, e);
      && Enabled(s, e) && r.rows == s.rows && r.touched == s.touched && r.cancels == s.cancels
      && r.redis == Dequeued(s.redis, name, t, now + DEFAULT_VISIBILITY / NS_PER_MS)
      && r.attempts == s.attempts[p := Attempt(node, t, t, Fetched, true, false, false, now)]
  {
    hide Dequeued, IsLeast;
  }

  /** The stores after the lease extension, if the task needs one and the call ran. */
  function Longer(redis: map<string, Queue>, t: Task, now: int): map<string, Queue> {
    if LongLease(t) then redis[t.queue := Leased(Get(redis, t.queue), t.id, now + VisibilityMs(t.timeout))] else redis
  }

  lemma ExtendIs(s: System, p: nat)
    requires p in s.attempts
    ensures
      var r, a := DoExtend(s, p), s.attempts[p];
      && r.rows == s.rows && r.touched == s.touched && r.cancels == s.cancels
      && r.redis == Longer(s.redis, a.task, a.fetchedAt) && r.attempts == s.attempts[p := a.(phase := Loaded)]
  {
    hide LongLease, Leased, VisibilityMs, Get;
  }

  lemma AtExtend(s: System, p: nat)
    requires InPhase(s, p, Fetched)
    ensures Enabled(s, Extend(p)) && Apply(s, Extend(p)) == DoExtend(s, p)
  {
    hide DoExtend;
  }

  lemma AtExtendFails(s: System, p: nat, applied: bool)
    requires InPhase(s, p, Fetched) && LongLease(s.attempts[p].task)
    ensures
      var e := ExtendFails(p, applied);
      var r, a := Apply(s, e), s.attempts[p];
      && Enabled(s, e) && r.rows == s.rows && r.touched == s.touched
      && r.redis == (if applied then Longer(s.redis, a.task, a.fetchedAt) else s.redis)
      && r.attempts == s.attempts - {p}
      && r.cancels == if a.tracked then s.cancels - {(a.node, a.task.id)} else s.cancels
  {
    hide DoExtend, Exit, LongLease, Longer;
    ExtendIs(s, p);
    ExitIs(s, p);
    ExitIs(DoExtend(s, p), p);
    var extended := DoExtend(s, p);
    assert extended.attempts - {p} == s.attempts - {p};
  }

  lemma AtScreen(s: System, p: nat, readable: bool)
    requires InPhase(s, p, Loaded)
    ensures
      var r, id := Apply(s, Screen(p, readable)), s.attempts[p].task.id;
      && Enabled(s, Screen(p, readable)) && SameStores(s, r) && r.cancels == s.cancels
      && r.attempts
         == s.attempts[p := s.attempts[p].(phase := if SeesTerminal(s, id, readable) then Acking else Screened)]
  {
    hide SeesTerminal;
  }

  lemma AtTrack(s: System, p: nat)
    requires InPhase(s, p, Screened)
    ensures
      var r, a := Apply(s, Track(p)), s.attempts[p];
      && Enabled(s, Track(p)) && SameStores(s, r)
      && r.cancels == s.cancels[(a.node, a.task.id) := p]
      && r.attempts == s.attempts[p := a.(phase := Tracked, tracked := true)]
  {
  }

  lemma AtRecheck(s: System, p: nat, readable: bool)
    requires InPhase(s, p, Tracked)
    ensures
      var r, id := Apply(s, Recheck(p, readable)), s.attempts[p].task.id;
      && Enabled(s, Recheck(p, readable)) && SameStores(s, r) && r.cancels == s.cancels
      && r.attempts
         == s.attempts[p := s.attempts[p].(phase := if SeesTerminal(s, id, readable) then Acking else Cleared)]
  {
    hide SeesTerminal;
  }

  lemma AtStart(s: System, p: nat, fault: Fault)
    requires InPhase(s, p, Cleared)
    ensures
      var r, a := Apply(s, Start(p, fault)), s.attempts[p];
      var t := a.task.(state := Running);
      && Enabled(s, Start(p, fault)) && r.redis == s.redis && r.touched == s.touched && r.cancels == s.cancels
      && r.rows == AfterUpdate(s.rows, t, fault)
      && r.attempts == s.attempts[p := a.(task := Bumped(t), phase := Handling,
                                          clean := a.clean && Succeeds(s.rows, t, fault))]
  {
    hide Write, AfterUpdate, Succeeds;
    WriteIs(s, s.attempts[p].task.(state := Running), fault);
    WriteFrame(s, s.attempts[p].task.(state := Running), fault);
  }

  lemma AfterFail(s: System, p: nat)
    requires p in s.attempts
    ensures
      var r := DoFail(s, p);
      && SameStores(s, r) && r.cancels == s.cancels
      && r.attempts == s.attempts[p := s.attempts[p].(task := FailedOnce(s.attempts[p].task), phase := Settling)]
    ensures FailedOnce(s.attempts[p].task).id == s.attempts[p].task.id
  {
  }

  lemma AtNoHandler(s: System, p: nat)
    requires InPhase(s, p, Cleared)
    ensures Enabled(s, NoHandler(p)) && Apply(s, NoHandler(p)) == DoFail(s, p)
  {
    hide DoFail;
  }

  lemma AtReturnOk(s: System, p: nat, shutdown: bool, readable: bool)
    requires InPhase(s, p, Handling)
    ensures
      var e := Return(p, true, shutdown, readable);
      var r, a := Apply(s, e), s.attempts[p];
      && Enabled(s, e) && SameStores(s, r) && r.cancels == s.cancels
      && r.attempts == s.attempts[p := a.(task := a.task.(state := Completed), phase := Settling)]
  {
  }

  /** The handler failed because its context was cancelled, and the row says so too. */
  predicate Stopped(s: System, a: Attempt, shutdown: bool, readable: bool) {
    (a.cancelled || shutdown) && readable && a.task.id in s.rows && s.rows[a.task.id].state == Cancelled
  }

  lemma AtReturnStopped(s: System, p: nat, shutdown: bool, readable: bool)
    requires InPhase(s, p, Handling) && Stopped(s, s.attempts[p], shutdown, readable)
    ensures
      var e := Return(p, false, shutdown, readable);
      var r := Apply(s, e);
      && Enabled(s, e) && SameStores(s, r) && r.cancels == s.cancels
      && r.attempts == s.attempts[p := s.attempts[p].(phase := Acking)]
  {
    hide DoFail;
  }

  lemma AtReturnFailed(s: System, p: nat, shutdown: bool, readable: bool)
    requires InPhase(s, p, Handling) && !Stopped(s, s.attempts[p], shutdown, readable)
    ensures
      var e := Return(p, false, shutdown, readable);
      Enabled(s, e) && Apply(s, e) == DoFail(s, p)
  {
    hide DoFail;
  }

  /** The attempt is over: its entry in the node's cancel map is gone too. */
  predicate Ended(s: System, r: System, p: nat)
    requires p in s.attempts
  {
    var a := s.attempts[p];
    r.attempts == s.attempts - {p} && r.cancels == if a.tracked then s.cancels - {(a.node, a.task.id)} else s.cancels
  }

  lemma AtSettle(s: System, p: nat, fault: Fault)
    requires InPhase(s, p, Settling)
    ensures
      var r, a := Apply(s, Settle(p, fault)), s.attempts[p];
      var retrying := a.task.state == Retrying;
      && Enabled(s, Settle(p, fault)) && r.redis == s.redis
      && r.touched == s.touched && r.rows == AfterUpdate(s.rows, a.task, fault)
      && (retrying && !Succeeds(s.rows, a.task, fault) ==> Ended(s, r, p))
      && (!(retrying && !Succeeds(s.rows, a.task, fault)) ==>
            && r.cancels == s.cancels
            && r.attempts == s.attempts[p := a.(task := Bumped(a.task), phase := if retrying then Nacking else Acking)])
  {
    hide Enabled, Apply, Write, AfterUpdate, Succeeds, Exit;
    SettleIs(s, p, fault);
    WriteIs(s, s.attempts[p].task, fault);
    WriteFrame(s, s.attempts[p].task, fault);
    ExitIs(Write(s, s.attempts[p].task, fault), p);
  }

  lemma SettleIs(s: System, p: nat, fault: Fault)
    requires InPhase(s, p, Settling)
    ensures Enabled(s, Settle(p, fault)) && Apply(s, Settle(p, fault)) == DoSettle(s, p, fault)
  {
    hide DoSettle;
  }

  lemma AtAck(s: System, p: nat, lost: bool)
    requires InPhase(s, p, Acking)
    ensures
      var r, t := Apply(s, Ack(p, lost)), s.attempts[p].task;
      && Enabled(s, Ack(p, lost)) && r.rows == s.rows && r.touched == s.touched && Ended(s, r, p)
      && r.redis == if lost then s.redis else s.redis[t.queue := Acked(Get(s.redis, t.queue), t.id)]
  {
    hide Acked, Get;
  }

  lemma ExitIs(s: System, p: nat)
    requires p in s.attempts
    ensures SameStores(s, Exit(s, p)) && Ended(s, Exit(s, p), p)
  {
    hide Rivals;
  }

  lemma AtNack(s: System, p: nat, clock: int, jitter: int, lost: bool)
    requires InPhase(s, p, Nacking) && JitterFits(s.attempts[p].task.retryBackoff, jitter)
    ensures
      var e := Nack(p, clock, jitter, lost);
      var r, t := Apply(s, e), s.attempts[p].task;
      var at := RetryAt(t, clock, jitter);
      && Enabled(s, e) && r.rows == s.rows && r.touched == s.touched && Ended(s, r, p)
      && r.redis == if lost then s.redis else s.redis[t.queue := Nacked(Get(s.redis, t.queue), t, at)]
  {
    hide Enabled, Apply, Nacked, Get, Exit, RetryAt, JitterFits;
    NackIs(s, p, clock, jitter, lost);
    var t := s.attempts[p].task;
    var at := RetryAt(t, clock, jitter);
    var nacked := Issue(OnQueue(s, t.queue, Nacked(Get(s.redis, t.queue), t, at)), t);
    ExitIs(s, p);
    ExitIs(nacked, p);
    ExitIs(Schedule(nacked, t, at), p);
  }

  lemma NackIs(s: System, p: nat, clock: int, jitter: int, lost: bool)
    requires InPhase(s, p, Nacking) && JitterFits(s.attempts[p].task.retryBackoff, jitter)
    ensures
      var e := Nack(p, clock, jitter, lost);
      Enabled(s, e) && Apply(s, e) == DoNack(s, p, RetryAt(s.attempts[p].task, clock, jitter), lost)
  {
    hide DoNack, RetryAt, JitterFits;
  }

  lemma AtDeliver(s: System, node: string, id: string)
    requires id in s.signals
    ensures
      var r := Apply(s, Deliver(node, id));
      && Enabled(s, Deliver(node, id)) && SameStores(s, r) && r.cancels == s.cancels
      && r.attempts == (if (node, id) in s.cancels && s.cancels[(node, id)] in s.attempts
                        then s.attempts[s.cancels[(node, id)] := s.attempts[s.cancels[(node, id)]].(cancelled := true)]
                        else s.attempts)
  {
    hide Enabled, Apply;
    DeliverStep(s, node, id);
  }

  lemma DeliverStep(s: System, node: string, id: string)
    requires id in s.signals
    ensures Enabled(s, Deliver(node, id)) && Apply(s, Deliver(node, id)) == DoDeliver(s, node, id)
  {
    hide DoDeliver;
  }

  // ----- submitters and cancellers -----

  lemma AtCreate(s: System, t: Task, now: int)
    requires t.id !in s.history.created && t.state == Pending && t.retryCount == 0 && t.version == 1
    ensures
      var r := Apply(s, Create(t, now));
      && Enabled(s, Create(t, now)) && r.redis == s.redis
      && r.rows == s.rows[t.id := t] && r.touched == s.touched[t.id := now]
      && t in r.submitting && r.history.created == s.history.created[t.id := t]
  {
  }

  lemma AtEnqueue(s: System, t: Task, at: int)
    requires t in s.submitting
    ensures
      var r, d := Apply(s, Enqueue(t)), Apply(s, EnqueueDelayed(t, at));
      && Enabled(s, Enqueue(t)) && r.rows == s.rows && r.touched == s.touched
      && r.history.created == s.history.created && r.redis == s.redis[t.queue := Enqueued(Get(s.redis, t.queue), t)]
      && Enabled(s, EnqueueDelayed(t, at)) && d.rows == s.rows && d.touched == s.touched
      && d.history.created == s.history.created
      && d.redis == s.redis[t.queue := Queues.Delayed(Get(s.redis, t.queue), t, at)]
  {
    hide Enqueued, Queues.Delayed, Get;
  }

  lemma AtCancelRead(s: System, c: nat, id: string)
    requires c !in s.cancellers && id in s.rows && !s.rows[id].IsTerminal()
    ensures
      var r := Apply(s, CancelRead(c, id));
      && Enabled(s, CancelRead(c, id)) && SameStores(s, r)
      && r.cancellers == s.cancellers[c := Canceller(s.rows[id].(state := Cancelled), Writing)]
  {
  }

  lemma AtCancelWrite(s: System, c: nat, fault: Fault)
    requires CancelIn(s, c, Writing)
    ensures
      var r, t := Apply(s, CancelWrite(c, fault)), s.cancellers[c].task;
      && Enabled(s, CancelWrite(c, fault)) && r.redis == s.redis
      && r.touched == s.touched && r.rows == AfterUpdate(s.rows, t, fault)
      && r.cancellers == if Succeeds(s.rows, t, fault)
                         then s.cancellers[c := Canceller(Bumped(t), Removing)] else s.cancellers - {c}
    ensures Succeeds(s.rows, s.cancellers[c].task, fault) ==>
              s.cancellers[c].task.id in Apply(s, CancelWrite(c, fault)).history.cancelled
  {
    hide Write, AfterUpdate, LockHolds;
    WriteIs(s, s.cancellers[c].task, fault);
    WriteFrame(s, s.cancellers[c].task, fault);
  }

  lemma AtCancelRemove(s: System, c: nat, lost: bool)
    requires CancelIn(s, c, Removing)
    ensures
      var r, t := Apply(s, CancelRemove(c, lost)), s.cancellers[c].task;
      && Enabled(s, CancelRemove(c, lost)) && r.rows == s.rows && r.touched == s.touched
      && r.history == s.history && r.cancellers == s.cancellers[c := Canceller(t, Publishing)]
      && r.redis == if lost then s.redis else s.redis[t.queue := Removed(Get(s.redis, t.queue), t.id)]
  {
    hide Removed, Get;
  }

  lemma AtCancelPublish(s: System, c: nat, lost: bool)
    requires CancelIn(s, c, Publishing)
    ensures
      var r := Apply(s, CancelPublish(c, lost));
      && Enabled(s, CancelPublish(c, lost)) && SameStores(s, r)
      && r.history == s.history && r.cancellers == s.cancellers - {c}
      && (!lost ==> s.cancellers[c].task.id in r.signals)
  {
  }

  // ----- scheduler loops -----

  lemma AtReclaim(s: System, name: string, now: int, batch: int, ids: seq<string>)
    requires IsRange(Get(s.redis, name).lease, now, batch, ids)
    ensures
      var r := Apply(s, Reclaim(name, now, batch, ids));
      && Enabled(s, Reclaim(name, now, batch, ids)) && r.rows == s.rows && r.touched == s.touched
      && r.redis == s.redis[name := Reclaimed(Get(s.redis, name), Elements(ids))]
  {
    hide Reclaimed, Get, Elements, IsRange;
  }

  lemma AtPromote(s: System, name: string, now: int, batch: int, ts: seq<Task>)
    requires IsRange(Get(s.redis, name).delayed, now, batch, ts)
    ensures
      var r := Apply(s, Promote(name, now, batch, ts));
      && Enabled(s, Promote(name, now, batch, ts)) && r.rows == s.rows && r.touched == s.touched
      && r.redis == s.redis[name := Promoted(Get(s.redis, name), Elements(ts))]
  {
    hide Promoted, Get, Elements, IsRange, Stamped;
  }

  lemma AtCleanup(s: System, gone: set<string>)
    requires gone <= s.rows.Keys && forall id | id in gone :: s.rows[id].IsTerminal()
    ensures
      var r := Apply(s, Cleanup(gone));
      Enabled(s, Cleanup(gone)) && r.redis == s.redis && r.rows == s.rows - gone && r.touched == s.touched
  {
  }

  lemma AtScan(s: System, t: Task, now: int, olderThan: int)
    requires Stale(s, t, now, olderThan)
    ensures
      var r := Apply(s, Scan(t, now, olderThan));
      Enabled(s, Scan(t, now, olderThan)) && SameStores(s, r) && r.snapshots == s.snapshots + {t}
  {
  }

  lemma AtCompensate(s: System, t: Task)
    requires t in s.snapshots
    ensures
      var r, q := Apply(s, Compensate(t)), Get(s.redis, t.queue);
      && Enabled(s, Compensate(t)) && r.rows == s.rows && r.touched == s.touched && r.snapshots == s.snapshots
      && r.redis == if t.id in q.inflight then s.redis else s.redis[t.queue := Compensated(q, t)]
  {
    hide Compensated, Get;
  }

  lemma AtTouch(s: System, id: string, now: int)
    ensures
      var r := Apply(s, Touch(id, now));
      && Enabled(s, Touch(id, now)) && r.redis == s.redis && r.rows == s.rows && r.snapshots == s.snapshots
      && r.touched == if id in s.touched then s.touched[id := now] else s.touched
  {
  }
}
