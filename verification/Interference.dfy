/** What an actor can rely on between two of its own steps. Nobody else moves an attempt, except that a
    cancel signal may mark its context once it is registered; nobody else moves a canceller or takes a
    submission. */
module Interference {
  import opened Entities
  import opened SortedSets
  import opened Queues
  import opened Timing
  import opened TaskTable
  import opened Selections
  import opened Protocol
  import opened Frames
  import opened Cancellation

  /** A step of attempt p itself, or the end of its node. */
  predicate OfAttempt(e: Event, p: nat, node: string) {
    match e
    case Fetch(q, _, _, _, _) => q == p
    case Extend(q) => q == p
    case ExtendFails(q, _) => q == p
    case Screen(q, _) => q == p
    case Track(q) => q == p
    case Recheck(q, _) => q == p
    case Start(q, _) => q == p
    case NoHandler(q) => q == p
    case Return(q, _, _, _) => q == p
    case Settle(q, _) => q == p
    case Ack(q, _) => q == p
    case Nack(q, _, _, _) => q == p
    case Crash(n) => n == node
    case _ => false
  }

  predicate OfCanceller(e: Event, c: nat) {
    match e
    case CancelRead(d, _) => d == c
    case CancelWrite(d, _) => d == c
    case CancelRemove(d, _) => d == c
    case CancelPublish(d, _) => d == c
    case _ => false
  }

  predicate OfSubmitter(e: Event, t: Task) {
    e == Enqueue(t) || (e.EnqueueDelayed? && e.t == t)
  }

  // ----- the steps of one actor in a stretch of a run -----

  function AttemptSteps(p: nat, node: string): Event -> bool {
    e => OfAttempt(e, p, node)
  }

  /** The steps of attempt p, and the ends of its node. */
  function Own(es: seq<Event>, p: nat, node: string): seq<Event> {
    Select(es, AttemptSteps(p, node))
  }

  function CancellerSteps(c: nat): Event -> bool {
    e => OfCanceller(e, c)
  }

  /** The steps of canceller c. */
  function OwnCancel(es: seq<Event>, c: nat): seq<Event> {
    Select(es, CancellerSteps(c))
  }

  function SubmitterSteps(t: Task): Event -> bool {
    e => OfSubmitter(e, t)
  }

  /** The first enqueues of t. */
  function OwnSubmit(es: seq<Event>, t: Task): seq<Event> {
    Select(es, SubmitterSteps(t))
  }

  /** The attempt as others may leave it. */
  predicate Spared(a: Attempt, b: Attempt) {
    && b == a.(cancelled := b.cancelled)
    && (a.cancelled ==> b.cancelled) && (b.cancelled && !a.cancelled ==> a.tracked)
  }

  // ----- attempts -----

  /** p is still there and spared. */
  predicate Spares(s: System, r: System, p: nat)
    requires p in s.attempts
  {
    p in r.attempts && Spared(s.attempts[p], r.attempts[p])
  }

  lemma ExtendSpares(s: System, q: nat, p: nat)
    requires q in s.attempts && p in s.attempts && q != p
    ensures Spares(s, DoExtend(s, q), p)
  {
    hide Get, Leased, LongLease, VisibilityMs;
  }

  lemma EarlySpares(s: System, q: nat, readable: bool, p: nat)
    requires q in s.attempts && p in s.attempts && q != p
    ensures Spares(s, DoScreen(s, q, readable), p) && Spares(s, DoTrack(s, q), p)
    ensures Spares(s, DoRecheck(s, q, readable), p)
  {
    hide SeesTerminal, Rivals;
  }

  lemma ExtendFailsSpares(s: System, q: nat, applied: bool, p: nat)
    requires q in s.attempts && p in s.attempts && q != p
    ensures Spares(s, Exit(if applied then DoExtend(s, q) else s, q), p)
  {
    hide Get, Leased, LongLease, VisibilityMs, Rivals;
  }

  lemma HandlingSpares(s: System, q: nat, fault: Fault, ok: bool, shutdown: bool, readable: bool, p: nat)
    requires q in s.attempts && p in s.attempts && q != p
    ensures Spares(s, DoStart(s, q, fault), p) && Spares(s, DoFail(s, q), p)
    ensures Spares(s, DoReturn(s, q, ok, shutdown, readable), p)
  {
    hide Write, Succeeds, FailedOnce;
    WriteFrame(s, s.attempts[q].task.(state := Running), fault);
  }

  lemma SettleSpares(s: System, q: nat, fault: Fault, p: nat)
    requires q in s.attempts && p in s.attempts && q != p
    ensures Spares(s, DoSettle(s, q, fault), p)
  {
    hide Write, Succeeds, Rivals;
    WriteFrame(s, s.attempts[q].task, fault);
  }

  lemma EndSpares(s: System, q: nat, at: int, lost: bool, p: nat)
    requires q in s.attempts && p in s.attempts && q != p
    ensures Spares(s, DoAck(s, q, lost), p) && Spares(s, DoNack(s, q, at, lost), p)
  {
    hide Get, Acked, Nacked, Rivals;
  }

  lemma CancelSpares(s: System, c: nat, id: string, fault: Fault, lost: bool, p: nat)
    requires p in s.attempts
    ensures id in s.rows ==> Spares(s, DoCancelRead(s, c, id), p)
    ensures c in s.cancellers ==>
              Spares(s, DoCancelWrite(s, c, fault), p) && Spares(s, DoCancelRemove(s, c, lost), p)
              && Spares(s, DoCancelPublish(s, c, lost), p)
  {
    hide Write, Succeeds, Commits, Removed, Get;
    if c in s.cancellers {
      WriteFrame(s, s.cancellers[c].task, fault);
    }
  }

  lemma QueueSpares(s: System, t: Task, at: int, name: string, ts: seq<Task>, p: nat)
    requires p in s.attempts
    ensures Spares(s, DoEnqueue(s, t), p) && Spares(s, DoEnqueueDelayed(s, t, at), p)
    ensures Spares(s, DoCompensate(s, t), p)
    ensures Spares(s, DoPromote(s, name, at, ts), p)
    ensures Spares(s, DoCreate(s, t, at), p) && Spares(s, DoScan(s, t, at), p)
  {
    hide Enqueued, Queues.Delayed, Compensated, Promoted, Get, Stamped;
  }

  lemma AsideSpares(s: System, name: string, q: Queue, id: string, now: int, gone: set<string>, p: nat)
    requires p in s.attempts
    ensures Spares(s, OnQueue(s, name, q), p) && Spares(s, DoTouch(s, id, now), p) && Spares(s, DoCleanup(s, gone), p)
  {
  }

  lemma FetchSpares(s: System, q: nat, node: string, name: string, t: Task, now: int, p: nat)
    requires p in s.attempts && q != p
    ensures Spares(s, DoFetch(s, q, node, name, t, now), p)
  {
    hide Dequeued;
  }

  lemma DeliverSpares(s: System, node: string, id: string, p: nat)
    requires p in s.attempts && EntriesLive(s)
    ensures Spares(s, DoDeliver(s, node, id), p)
  {
    hide DoDeliver;
    DeliverIs(s, node, id);
    assert (node, id) in s.cancels ==> Names(s.attempts, (node, id), s.cancels[(node, id)]);
  }

  lemma CrashSpares(s: System, node: string, p: nat)
    requires p in s.attempts && s.attempts[p].node != node
    ensures Spares(s, DoCrash(s, node), p)
  {
  }

  lemma OfOther(e: Event, p: nat, node: string)
    requires !OfAttempt(e, p, node)
    ensures e.Crash? ==> e.node != node
    ensures e.Fetch? || e.Extend? || e.ExtendFails? || e.Screen? || e.Track? || e.Recheck? ==> e.p != p
    ensures e.Start? || e.NoHandler? || e.Return? || e.Settle? || e.Ack? || e.Nack? ==> e.p != p
  {
  }

  lemma WorkerStepSparesAttempt(s: System, e: Event, p: nat)
    requires EntriesLive(s) && Enabled(s, e) && ByWorker(e) && p in s.attempts && !OfAttempt(e, p, s.attempts[p].node)
    ensures Spares(s, Apply(s, e), p)
  {
    hide *;
    UnfoldWorker(s, e);
    OfOther(e, p, s.attempts[p].node);
    match e
    case Fetch(q, node, name, t, now) => FetchSpares(s, q, node, name, t, now, p);
    case Extend(q) => ExtendSpares(s, q, p);
    case ExtendFails(q, applied) => ExtendFailsSpares(s, q, applied, p);
    case Screen(q, readable) => EarlySpares(s, q, readable, p);
    case Track(q) => EarlySpares(s, q, true, p);
    case Recheck(q, readable) => EarlySpares(s, q, readable, p);
    case Start(q, fault) => HandlingSpares(s, q, fault, true, true, true, p);
    case NoHandler(q) => HandlingSpares(s, q, NoFault, true, true, true, p);
    case Return(q, ok, shutdown, readable) => HandlingSpares(s, q, NoFault, ok, shutdown, readable, p);
    case Settle(q, fault) => SettleSpares(s, q, fault, p);
    case Ack(q, lost) => EndSpares(s, q, 0, lost, p);
    case Nack(q, clock, jitter, lost) => EndSpares(s, q, RetryAt(s.attempts[q].task, clock, jitter), lost, p);
  }

  lemma StepSparesAttempt(s: System, e: Event, p: nat)
    requires EntriesLive(s) && Enabled(s, e) && p in s.attempts && !OfAttempt(e, p, s.attempts[p].node)
    ensures Spares(s, Apply(s, e), p)
  {
    hide *;
    if ByWorker(e) {
      WorkerStepSparesAttempt(s, e, p);
      return;
    }
    UnfoldOther(s, e);
    OfOther(e, p, s.attempts[p].node);
    match e
    case Create(t, now) => QueueSpares(s, t, now, "", [], p);
    case Enqueue(t) => QueueSpares(s, t, 0, "", [], p);
    case EnqueueDelayed(t, at) => QueueSpares(s, t, at, "", [], p);
    case Compensate(t) => QueueSpares(s, t, 0, "", [], p);
    case Scan(t, now, olderThan) => QueueSpares(s, t, now, "", [], p);
    case Promote(name, now, batch, ts) => QueueSpares(s, NoTask, now, name, ts, p);
    case Touch(id, now) => AsideSpares(s, "", EmptyQueue, id, now, {}, p);
    case Reclaim(name, now, batch, ids) =>
      AsideSpares(s, name, Reclaimed(Get(s.redis, name), Elements(ids)), "", 0, {}, p);
    case Cleanup(gone) => AsideSpares(s, "", EmptyQueue, "", 0, gone, p);
    case Crash(node) => CrashSpares(s, node, p);
    case Deliver(node, id) => DeliverSpares(s, node, id, p);
    case CancelRead(c, id) => CancelSpares(s, c, id, NoFault, true, p);
    case CancelWrite(c, fault) => CancelSpares(s, c, "", fault, true, p);
    case CancelRemove(c, lost) => CancelSpares(s, c, "", NoFault, lost, p);
    case CancelPublish(c, lost) => CancelSpares(s, c, "", NoFault, lost, p);
  }

  lemma SparedSelf(a: Attempt)
    ensures Spared(a, a)
  {
  }

  lemma SparedTwice(a: Attempt, b: Attempt, c: Attempt)
    requires Spared(a, b) && Spared(b, c)
    ensures Spared(a, c)
  {
  }

  lemma ReachableEntries(s: System)
    requires Reachable(s)
    ensures EntriesLive(s)
  {
    hide Reachable, EntriesLive, AllHear, Founded, CancelsStand;
    ReachableIsAttentive(s);
  }

  /** Over any stretch of a run that contains no step of the attempt itself, the attempt is spared. */
  lemma {:induction false} OthersSpareAttempt(s: System, es: seq<Event>, r: System, p: nat)
    requires Reachable(s) && Run(s, es) == Some(r) && p in s.attempts
    requires forall i | 0 <= i < |es| :: !OfAttempt(es[i], p, s.attempts[p].node)
    ensures Spares(s, r, p)
  {
    hide Enabled, Apply, Reachable, OfAttempt;
    if es == [] {
      SparedSelf(s.attempts[p]);
    } else {
      var init := es[..|es| - 1];
      var mid := Run(s, init).value;
      OthersSpareAttempt(s, init, mid, p);
      StaysReachable(s, init, mid);
      ReachableEntries(mid);
      StepSparesAttempt(mid, es[|es| - 1], p);
      SparedTwice(s.attempts[p], mid.attempts[p], r.attempts[p]);
    }
  }

  // ----- cancellers and submissions -----

  /** Canceller d and submission t are where they were, and no compensation loop has forgotten a row. */
  predicate Keeps(s: System, r: System, d: nat, t: Task) {
    && (d in s.cancellers ==> d in r.cancellers && r.cancellers[d] == s.cancellers[d])
    && (t in s.submitting ==> t in r.submitting)
    && s.snapshots <= r.snapshots
  }

  lemma EarlyKeeps(s: System, q: nat, readable: bool, d: nat, t: Task)
    requires q in s.attempts
    ensures Keeps(s, DoExtend(s, q), d, t) && Keeps(s, DoScreen(s, q, readable), d, t)
    ensures Keeps(s, DoTrack(s, q), d, t) && Keeps(s, DoRecheck(s, q, readable), d, t)
  {
    hide Get, Leased, LongLease, VisibilityMs, SeesTerminal, Rivals;
  }

  lemma ExtendFailsKeeps(s: System, q: nat, applied: bool, d: nat, t: Task)
    requires q in s.attempts
    ensures Keeps(s, Exit(if applied then DoExtend(s, q) else s, q), d, t)
  {
    hide Get, Leased, LongLease, VisibilityMs, Rivals;
  }

  lemma HandlingKeeps(s: System, q: nat, fault: Fault, ok: bool, shutdown: bool, readable: bool, d: nat, t: Task)
    requires q in s.attempts
    ensures Keeps(s, DoStart(s, q, fault), d, t) && Keeps(s, DoFail(s, q), d, t)
    ensures Keeps(s, DoReturn(s, q, ok, shutdown, readable), d, t)
  {
    hide Write, Succeeds, FailedOnce;
    WriteFrame(s, s.attempts[q].task.(state := Running), fault);
  }

  lemma SettleKeeps(s: System, q: nat, fault: Fault, d: nat, t: Task)
    requires q in s.attempts
    ensures Keeps(s, DoSettle(s, q, fault), d, t)
  {
    hide Write, Succeeds, Rivals;
    WriteFrame(s, s.attempts[q].task, fault);
  }

  lemma EndKeeps(s: System, q: nat, at: int, lost: bool, d: nat, t: Task)
    requires q in s.attempts
    ensures Keeps(s, DoAck(s, q, lost), d, t) && Keeps(s, DoNack(s, q, at, lost), d, t)
  {
    hide Get, Acked, Nacked, Exit;
    var u := s.attempts[q].task;
    ExitKeeps(s, s, q, d, t);
    ExitKeeps(s, OnQueue(s, u.queue, Acked(Get(s.redis, u.queue), u.id)), q, d, t);
    var put := Issue(OnQueue(s, u.queue, Nacked(Get(s.redis, u.queue), u, at)), u);
    ExitKeeps(s, put, q, d, t);
    ExitKeeps(s, Schedule(put, u, at), q, d, t);
  }

  lemma ExitKeeps(s: System, r: System, q: nat, d: nat, t: Task)
    requires q in r.attempts && r == s.(redis := r.redis, history := r.history)
    ensures Keeps(s, Exit(r, q), d, t)
  {
    hide Rivals;
  }

  lemma CancelKeeps(s: System, c: nat, id: string, lost: bool, d: nat, t: Task)
    requires c != d
    ensures id in s.rows ==> Keeps(s, DoCancelRead(s, c, id), d, t)
    ensures c in s.cancellers ==>
              Keeps(s, DoCancelRemove(s, c, lost), d, t) && Keeps(s, DoCancelPublish(s, c, lost), d, t)
  {
    hide Removed, Get;
  }

  lemma CancelWriteKeeps(s: System, c: nat, fault: Fault, d: nat, t: Task)
    requires c != d && c in s.cancellers
    ensures Keeps(s, DoCancelWrite(s, c, fault), d, t)
  {
    hide Write, Succeeds, Commits, LockHolds;
    WriteFrame(s, s.cancellers[c].task, fault);
  }

  lemma SubmitKeeps(s: System, u: Task, at: int, d: nat, t: Task)
    requires u != t
    ensures Keeps(s, DoEnqueue(s, u), d, t) && Keeps(s, DoEnqueueDelayed(s, u, at), d, t)
  {
    hide Enqueued, Queues.Delayed, Get;
  }

  lemma QueueKeeps(s: System, u: Task, at: int, name: string, ts: seq<Task>, d: nat, t: Task)
    ensures Keeps(s, DoCompensate(s, u), d, t) && Keeps(s, DoPromote(s, name, at, ts), d, t)
  {
    hide Compensated, Promoted, Get, Stamped;
  }

  lemma RowKeeps(s: System, u: Task, now: int, d: nat, t: Task)
    ensures Keeps(s, DoCreate(s, u, now), d, t) && Keeps(s, DoScan(s, u, now), d, t)
  {
  }

  lemma AsideKeeps(s: System, name: string, q: Queue, id: string, now: int, gone: set<string>, d: nat, t: Task)
    ensures Keeps(s, OnQueue(s, name, q), d, t) && Keeps(s, DoTouch(s, id, now), d, t)
    ensures Keeps(s, DoCleanup(s, gone), d, t)
    ensures Keeps(s, DoCrash(s, name), d, t)
  {
  }

  lemma FetchKeeps(s: System, q: nat, node: string, name: string, u: Task, now: int, d: nat, t: Task)
    ensures Keeps(s, DoFetch(s, q, node, name, u, now), d, t)
  {
    hide Dequeued;
  }

  lemma DeliverKeeps(s: System, node: string, id: string, d: nat, t: Task)
    ensures Keeps(s, DoDeliver(s, node, id), d, t)
  {
    hide DoDeliver;
    DeliverIs(s, node, id);
  }

  lemma OfNeither(e: Event, d: nat, t: Task)
    requires !OfCanceller(e, d) && !OfSubmitter(e, t)
    ensures e.CancelRead? || e.CancelWrite? || e.CancelRemove? || e.CancelPublish? ==> e.c != d
    ensures e.Enqueue? || e.EnqueueDelayed? ==> e.t != t
  {
  }

  lemma WorkerStepKeeps(s: System, e: Event, d: nat, t: Task)
    requires Enabled(s, e) && ByWorker(e) && !OfCanceller(e, d) && !OfSubmitter(e, t)
    ensures Keeps(s, Apply(s, e), d, t)
  {
    hide *;
    UnfoldWorker(s, e);
    OfNeither(e, d, t);
    match e
    case Fetch(q, node, name, u, now) => FetchKeeps(s, q, node, name, u, now, d, t);
    case Extend(q) => EarlyKeeps(s, q, true, d, t);
    case ExtendFails(q, applied) => ExtendFailsKeeps(s, q, applied, d, t);
    case Screen(q, readable) => EarlyKeeps(s, q, readable, d, t);
    case Track(q) => EarlyKeeps(s, q, true, d, t);
    case Recheck(q, readable) => EarlyKeeps(s, q, readable, d, t);
    case Start(q, fault) => HandlingKeeps(s, q, fault, true, true, true, d, t);
    case NoHandler(q) => HandlingKeeps(s, q, NoFault, true, true, true, d, t);
    case Return(q, ok, shutdown, readable) => HandlingKeeps(s, q, NoFault, ok, shutdown, readable, d, t);
    case Settle(q, fault) => SettleKeeps(s, q, fault, d, t);
    case Ack(q, lost) => EndKeeps(s, q, 0, lost, d, t);
    case Nack(q, clock, jitter, lost) => EndKeeps(s, q, RetryAt(s.attempts[q].task, clock, jitter), lost, d, t);
  }

  lemma StepKeeps(s: System, e: Event, d: nat, t: Task)
    requires Enabled(s, e) && !OfCanceller(e, d) && !OfSubmitter(e, t)
    ensures Keeps(s, Apply(s, e), d, t)
  {
    hide *;
    if ByWorker(e) {
      WorkerStepKeeps(s, e, d, t);
      return;
    }
    UnfoldOther(s, e);
    OfNeither(e, d, t);
    match e
    case Create(u, now) => RowKeeps(s, u, now, d, t);
    case Enqueue(u) => SubmitKeeps(s, u, 0, d, t);
    case EnqueueDelayed(u, at) => SubmitKeeps(s, u, at, d, t);
    case Compensate(u) => QueueKeeps(s, u, 0, "", [], d, t);
    case Scan(u, now, olderThan) => RowKeeps(s, u, now, d, t);
    case Promote(name, now, batch, ts) => QueueKeeps(s, NoTask, now, name, ts, d, t);
    case Touch(id, now) => AsideKeeps(s, "", EmptyQueue, id, now, {}, d, t);
    case Reclaim(name, now, batch, ids) =>
      AsideKeeps(s, name, Reclaimed(Get(s.redis, name), Elements(ids)), "", 0, {}, d, t);
    case Cleanup(gone) => AsideKeeps(s, "", EmptyQueue, "", 0, gone, d, t);
    case Crash(node) => AsideKeeps(s, node, EmptyQueue, "", 0, {}, d, t);
    case Deliver(node, id) => DeliverKeeps(s, node, id, d, t);
    case CancelRead(c, id) => CancelKeeps(s, c, id, true, d, t);
    case CancelWrite(c, fault) => CancelWriteKeeps(s, c, fault, d, t);
    case CancelRemove(c, lost) => CancelKeeps(s, c, "", lost, d, t);
    case CancelPublish(c, lost) => CancelKeeps(s, c, "", lost, d, t);
  }

  lemma KeepsSelf(s: System, d: nat, t: Task)
    ensures Keeps(s, s, d, t)
  {
  }

  lemma KeepsTwice(s: System, mid: System, r: System, d: nat, t: Task)
    requires Keeps(s, mid, d, t) && Keeps(mid, r, d, t)
    ensures Keeps(s, r, d, t)
  {
  }

  /** Over any stretch of a run without steps of the canceller and the submitter, both are kept. */
  lemma {:induction false} OthersKeep(s: System, es: seq<Event>, r: System, d: nat, t: Task)
    requires Run(s, es) == Some(r) && forall i | 0 <= i < |es| :: !OfCanceller(es[i], d) && !OfSubmitter(es[i], t)
    ensures Keeps(s, r, d, t)
  {
    hide Enabled, Apply, OfCanceller, OfSubmitter, Keeps;
    if es == [] {
      KeepsSelf(s, d, t);
    } else {
      var init := es[..|es| - 1];
      var mid := Run(s, init).value;
      OthersKeep(s, init, mid, d, t);
      StepKeeps(mid, es[|es| - 1], d, t);
      KeepsTwice(s, mid, r, d, t);
    }
  }

  lemma SnapshotsStay(s: System, e: Event)
    requires Enabled(s, e)
    ensures s.snapshots <= Apply(s, e).snapshots
  {
    hide Enabled, Apply;
    var d := if e.CancelRead? || e.CancelWrite? || e.CancelRemove? || e.CancelPublish? then e.c + 1 else 0;
    var t := if e.Enqueue? || e.EnqueueDelayed? then e.t.(version := e.t.version + 1) else NoTask;
    StepKeeps(s, e, d, t);
  }

  /** A compensation loop keeps the rows it has read, whoever else is at work. */
  lemma {:induction false} OthersKeepSnapshots(s: System, es: seq<Event>, r: System)
    requires Run(s, es) == Some(r)
    ensures s.snapshots <= r.snapshots
  {
    hide Enabled, Apply;
    if es != [] {
      var mid := Run(s, es[..|es| - 1]).value;
      OthersKeepSnapshots(s, es[..|es| - 1], mid);
      SnapshotsStay(mid, es[|es| - 1]);
    }
  }
}
