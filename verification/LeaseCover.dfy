/** The lease outlasts the handler. From the moment a task is dequeued, and as long as no other dequeue of
    it is pending or follows, the lease of that attempt ends at the dequeue clock plus the visibility
    timeout, whatever else happens in the system and whatever happened to the task before. So no reclaim
    with an earlier clock takes the task away. */
module LeaseCover {
  import opened Entities
  import opened SortedSets
  import opened Keys
  import opened Queues
  import opened Timing
  import opened TaskTable
  import opened Protocol
  import opened Shape
  import opened Frames

  /** A dequeue: which attempt, of which task, from which queue, at what clock (ms). */
  datatype Watch = Watch(p: nat, id: string, queue: string, at: int)

  predicate Of(a: Attempt, id: string) {
    a.task.id == id
  }

  predicate Pending(a: Attempt, id: string) {
    Of(a, id) && a.phase == Fetched
  }

  function Deadline(a: Attempt): int {
    a.fetchedAt + if a.phase == Fetched then DEFAULT_VISIBILITY / NS_PER_MS else VisibilityMs(a.task.timeout)
  }

  /** The attempt's lease, if its queue still has one. */
  function LeaseFor(redis: map<string, Queue>, a: Attempt): Option<int> {
    var lease := Get(redis, a.task.queue).lease;
    if a.task.id in lease then Some(lease[a.task.id]) else None
  }

  predicate InTime(redis: map<string, Queue>, a: Attempt, w: Watch) {
    && a.fetchedAt == w.at && a.task.queue == w.queue
    && (Agrees(w.queue) ==> LeaseFor(redis, a) == None || LeaseFor(redis, a) == Some(Deadline(a)))
  }

  /** The watched dequeue is the last of its task: no other is pending, and its lease is the task's. */
  ghost predicate Latest(s: System, w: Watch) {
    && (forall x | x in s.attempts && x != w.p :: !Pending(s.attempts[x], w.id))
    && (w.p in s.attempts && Of(s.attempts[w.p], w.id) ==> InTime(s.redis, s.attempts[w.p], w))
  }

  // ----- steps that set no lease -----

  predicate Steady(a: Attempt, b: Attempt) {
    && b.task.id == a.task.id && b.task.queue == a.task.queue
    && b.task.timeout == a.task.timeout && b.fetchedAt == a.fetchedAt
    && (b.phase == Fetched <==> a.phase == Fetched)
  }

  predicate SteadyAttempts(a: map<nat, Attempt>, b: map<nat, Attempt>) {
    forall p | p in b :: p in a && Steady(a[p], b[p])
  }

  predicate Fewer(a: map<string, int>, b: map<string, int>) {
    forall id | id in b :: id in a && b[id] == a[id]
  }

  ghost predicate FewerLeases(a: map<string, Queue>, b: map<string, Queue>) {
    forall name :: Fewer(Get(a, name).lease, Get(b, name).lease)
  }

  ghost predicate Quiet(s: System, r: System) {
    SteadyAttempts(s.attempts, r.attempts) && FewerLeases(s.redis, r.redis)
  }

  lemma QuietKeeps(s: System, r: System, w: Watch)
    requires Latest(s, w) && Quiet(s, r)
    ensures Latest(r, w)
  {
    hide Get, VisibilityMs;
    if w.p in r.attempts && Of(r.attempts[w.p], w.id) {
      var name := s.attempts[w.p].task.queue;
      assert Fewer(Get(s.redis, name).lease, Get(r.redis, name).lease);
    }
  }

  lemma SteadySame(a: map<nat, Attempt>, p: nat, x: Attempt)
    ensures SteadyAttempts(a, a)
    ensures SteadyAttempts(a, a - {p})
    ensures p in a && Steady(a[p], x) ==> SteadyAttempts(a, a[p := x])
  {
  }

  lemma LeasesPut(redis: map<string, Queue>, name: string, q: Queue)
    ensures FewerLeases(redis, redis)
    ensures Fewer(Get(redis, name).lease, q.lease) ==> FewerLeases(redis, redis[name := q])
  {
  }

  lemma FewerAdded(q: Queue, t: Task, at: int, ts: set<Task>)
    ensures Fewer(q.lease, Enqueued(q, t).lease) && Fewer(q.lease, Queues.Delayed(q, t, at).lease)
    ensures Fewer(q.lease, Compensated(q, t).lease) && Fewer(q.lease, Promoted(q, ts).lease)
  {
  }

  lemma FewerEnded(q: Queue, t: Task, at: int, ids: set<string>)
    ensures Fewer(q.lease, Acked(q, t.id).lease) && Fewer(q.lease, Nacked(q, t, at).lease)
    ensures Fewer(q.lease, Removed(q, t.id).lease) && Fewer(q.lease, Reclaimed(q, ids).lease)
  {
    hide Scores, Stranded, Unmatched;
  }

  /** Steps that leave the queues alone. */
  lemma Local(s: System, r: System, p: nat, x: Attempt)
    requires r.redis == s.redis
    requires r.attempts == s.attempts || r.attempts == s.attempts - {p}
             || (p in s.attempts && r.attempts == s.attempts[p := x] && Steady(s.attempts[p], x))
    ensures Quiet(s, r)
  {
    hide SteadyAttempts, FewerLeases, Steady;
    SteadySame(s.attempts, p, x);
    LeasesPut(s.redis, "", EmptyQueue);
  }

  /** Steps on one queue that set no lease. */
  lemma OneQueue(s: System, r: System, name: string, q: Queue, p: nat)
    requires r.redis == s.redis[name := q] && Fewer(Get(s.redis, name).lease, q.lease)
    requires r.attempts == s.attempts || r.attempts == s.attempts - {p}
    ensures Quiet(s, r)
  {
    hide SteadyAttempts, FewerLeases, Steady, Get, Fewer;
    SteadySame(s.attempts, p, NoAttempt);
    LeasesPut(s.redis, name, q);
  }

  lemma ScreenQuiet(s: System, p: nat, readable: bool)
    requires p in s.attempts
    ensures s.attempts[p].phase == Loaded ==> Quiet(s, DoScreen(s, p, readable))
    ensures s.attempts[p].phase == Tracked ==> Quiet(s, DoRecheck(s, p, readable))
  {
    hide Quiet, SeesTerminal;
    if s.attempts[p].phase == Loaded {
      Local(s, DoScreen(s, p, readable), p, DoScreen(s, p, readable).attempts[p]);
    } else if s.attempts[p].phase == Tracked {
      Local(s, DoRecheck(s, p, readable), p, DoRecheck(s, p, readable).attempts[p]);
    }
  }

  lemma TrackQuiet(s: System, p: nat)
    requires p in s.attempts && s.attempts[p].phase == Screened
    ensures Quiet(s, DoTrack(s, p))
  {
    hide Quiet, Rivals;
    Local(s, DoTrack(s, p), p, DoTrack(s, p).attempts[p]);
  }

  lemma ExitEnds(s: System, p: nat)
    requires p in s.attempts
    ensures Exit(s, p).attempts == s.attempts - {p} && Exit(s, p).redis == s.redis
  {
    hide Rivals;
  }

  lemma ExitQuiet(s: System, p: nat)
    requires p in s.attempts
    ensures Quiet(s, Exit(s, p))
  {
    hide Quiet, Rivals, Steady;
    Local(s, Exit(s, p), p, NoAttempt);
  }

  lemma StartQuiet(s: System, p: nat, fault: Fault)
    requires p in s.attempts && s.attempts[p].phase == Cleared
    ensures Quiet(s, DoStart(s, p, fault))
  {
    hide Quiet, Write, Succeeds;
    WriteFrame(s, s.attempts[p].task.(state := Running), fault);
    Local(s, DoStart(s, p, fault), p, DoStart(s, p, fault).attempts[p]);
  }

  lemma FailQuiet(s: System, p: nat)
    requires p in s.attempts && (s.attempts[p].phase == Cleared || s.attempts[p].phase == Handling)
    ensures Quiet(s, DoFail(s, p))
  {
    hide Quiet;
    Local(s, DoFail(s, p), p, DoFail(s, p).attempts[p]);
  }

  lemma ReturnQuiet(s: System, p: nat, ok: bool, shutdown: bool, readable: bool)
    requires p in s.attempts && s.attempts[p].phase == Handling
    ensures Quiet(s, DoReturn(s, p, ok, shutdown, readable))
  {
    hide Quiet, DoFail;
    FailQuiet(s, p);
    if ok {
      Local(s, DoReturn(s, p, ok, shutdown, readable), p, DoReturn(s, p, ok, shutdown, readable).attempts[p]);
    } else {
      Local(s, MoveTo(s, p, Acking), p, s.attempts[p].(phase := Acking));
    }
  }

  lemma SettleQuiet(s: System, p: nat, fault: Fault)
    requires p in s.attempts && s.attempts[p].phase == Settling
    ensures Quiet(s, DoSettle(s, p, fault))
  {
    hide Quiet, Write, Succeeds, Exit;
    var a := s.attempts[p];
    var w := Write(s, a.task, fault);
    WriteFrame(s, a.task, fault);
    ExitEnds(w, p);
    Local(s, Exit(w, p), p, NoAttempt);
    var b := a.(task := Bumped(a.task), phase := if a.task.state == Retrying then Nacking else Acking);
    Local(s, w.(attempts := s.attempts[p := b]), p, b);
  }

  lemma AckQuiet(s: System, p: nat, lost: bool)
    requires p in s.attempts
    ensures Quiet(s, DoAck(s, p, lost))
  {
    hide Quiet, Acked, Get, Fewer, Steady, Rivals;
    var t := s.attempts[p].task;
    var q := Get(s.redis, t.queue);
    FewerEnded(q, t, 0, {});
    if lost {
      Local(s, DoAck(s, p, lost), p, NoAttempt);
    } else {
      OneQueue(s, DoAck(s, p, lost), t.queue, Acked(q, t.id), p);
    }
  }

  lemma NackQuiet(s: System, p: nat, at: int, lost: bool)
    requires p in s.attempts
    ensures Quiet(s, DoNack(s, p, at, lost))
  {
    hide Quiet, Nacked, Get, Fewer, Steady, Exit;
    var t := s.attempts[p].task;
    var q := Get(s.redis, t.queue);
    FewerEnded(q, t, at, {});
    ExitEnds(s, p);
    var nacked := Issue(OnQueue(s, t.queue, Nacked(q, t, at)), t);
    ExitEnds(nacked, p);
    ExitEnds(Schedule(nacked, t, at), p);
    if lost {
      Local(s, DoNack(s, p, at, lost), p, NoAttempt);
    } else {
      OneQueue(s, DoNack(s, p, at, lost), t.queue, Nacked(q, t, at), p);
    }
  }

  lemma SubmitQuiet(s: System, t: Task, at: int)
    ensures Quiet(s, DoEnqueue(s, t)) && Quiet(s, DoEnqueueDelayed(s, t, at)) && Quiet(s, DoCompensate(s, t))
  {
    hide Quiet, Enqueued, Queues.Delayed, Compensated, Get, Fewer, Steady;
    var q := Get(s.redis, t.queue);
    FewerAdded(q, t, at, {});
    OneQueue(s, DoEnqueue(s, t), t.queue, Enqueued(q, t), 0);
    OneQueue(s, DoEnqueueDelayed(s, t, at), t.queue, Queues.Delayed(q, t, at), 0);
    if t.id in q.inflight {
      Local(s, s, 0, NoAttempt);
    } else {
      OneQueue(s, DoCompensate(s, t), t.queue, Compensated(q, t), 0);
    }
  }

  lemma BatchQuiet(s: System, name: string, now: int, ts: seq<Task>, ids: seq<string>)
    ensures Quiet(s, DoPromote(s, name, now, ts))
    ensures Quiet(s, OnQueue(s, name, Reclaimed(Get(s.redis, name), Elements(ids))))
  {
    hide Quiet, Promoted, Reclaimed, Get, Fewer, Stamped;
    var q := Get(s.redis, name);
    FewerAdded(q, NoTask, 0, Elements(ts));
    FewerEnded(q, NoTask, 0, Elements(ids));
    OneQueue(s, DoPromote(s, name, now, ts), name, Promoted(q, Elements(ts)), 0);
    OneQueue(s, OnQueue(s, name, Reclaimed(q, Elements(ids))), name, Reclaimed(q, Elements(ids)), 0);
  }

  lemma RemoveQuiet(s: System, c: nat, lost: bool)
    requires c in s.cancellers
    ensures Quiet(s, DoCancelRemove(s, c, lost))
  {
    hide Quiet, Removed, Get, Fewer, Steady;
    var t := s.cancellers[c].task;
    var q := Get(s.redis, t.queue);
    FewerEnded(q, t, 0, {});
    if lost {
      Local(s, DoCancelRemove(s, c, lost), 0, NoAttempt);
    } else {
      OneQueue(s, DoCancelRemove(s, c, lost), t.queue, Removed(q, t.id), 0);
    }
  }

  lemma CrashQuiet(s: System, node: string)
    ensures Quiet(s, DoCrash(s, node))
  {
    hide FewerLeases;
    LeasesPut(s.redis, "", EmptyQueue);
  }

  lemma DeliverQuiet(s: System, node: string, id: string)
    ensures Quiet(s, DoDeliver(s, node, id))
  {
    hide Quiet, DoDeliver;
    var p, b := DeliverMoves(s, node, id);
    Local(s, DoDeliver(s, node, id), p, b);
  }

  lemma CancelWriteQuiet(s: System, c: nat, fault: Fault)
    requires c in s.cancellers
    ensures Quiet(s, DoCancelWrite(s, c, fault))
  {
    hide Quiet, Write, Succeeds, Commits, Steady;
    WriteFrame(s, s.cancellers[c].task, fault);
    Local(s, DoCancelWrite(s, c, fault), 0, NoAttempt);
  }

  /** Steps that touch neither attempts nor queues. */
  lemma AsideQuiet(s: System, r: System)
    requires r.attempts == s.attempts && r.redis == s.redis
    ensures Quiet(s, r)
  {
    hide Quiet, Steady;
    Local(s, r, 0, NoAttempt);
  }

  lemma OthersQuiet(s: System, t: Task, now: int, id: string, gone: set<string>)
    ensures Quiet(s, DoCreate(s, t, now)) && Quiet(s, DoScan(s, t, now))
    ensures Quiet(s, DoTouch(s, id, now)) && Quiet(s, DoCleanup(s, gone))
  {
    hide Quiet;
    AsideQuiet(s, DoCreate(s, t, now));
    AsideQuiet(s, DoScan(s, t, now));
    AsideQuiet(s, DoTouch(s, id, now));
    AsideQuiet(s, DoCleanup(s, gone));
  }

  lemma CancelsQuiet(s: System, c: nat, id: string, lost: bool)
    ensures id in s.rows ==> Quiet(s, DoCancelRead(s, c, id))
    ensures c in s.cancellers ==> Quiet(s, DoCancelPublish(s, c, lost))
  {
    hide Quiet;
    if id in s.rows {
      AsideQuiet(s, DoCancelRead(s, c, id));
    }
    if c in s.cancellers {
      AsideQuiet(s, DoCancelPublish(s, c, lost));
    }
  }

  // ----- steps that set a lease -----

  /** What the script records is the attempt's own lease if the queue name agrees. */
  lemma FetchBegins(s: System, p: nat, node: string, name: string, t: Task, now: int)
    requires p !in s.attempts && t.queue == name
    requires forall x | x in s.attempts :: !Pending(s.attempts[x], t.id)
    ensures Latest(DoFetch(s, p, node, name, t, now), Watch(p, t.id, name, now))
  {
    hide Dequeued, Agrees, VisibilityMs;
    if Agrees(name) {
      DequeuedAgrees(s.redis, name, t, now + DEFAULT_VISIBILITY / NS_PER_MS);
    }
  }

  lemma LeasesDequeued(redis: map<string, Queue>, name: string, t: Task, deadline: int, a: Attempt)
    requires a.task.id != t.id
    ensures LeaseFor(Dequeued(redis, name, t, deadline), a) == LeaseFor(redis, a)
  {
    hide InflightName, LeaseName;
  }

  /** A dequeue of another task, also under the number of the watched attempt once that is over. */
  lemma FetchElsewhere(s: System, w: Watch, p: nat, node: string, name: string, t: Task, now: int)
    requires Latest(s, w) && p !in s.attempts && t.id != w.id
    ensures Latest(DoFetch(s, p, node, name, t, now), w)
  {
    hide Dequeued, VisibilityMs, LeaseFor, Agrees;
    if w.p in s.attempts && Of(s.attempts[w.p], w.id) {
      LeasesDequeued(s.redis, name, t, now + DEFAULT_VISIBILITY / NS_PER_MS, s.attempts[w.p]);
    }
  }

  lemma LeasesExtended(redis: map<string, Queue>, name: string, id: string, deadline: int, a: Attempt)
    requires a.task.id != id
    ensures LeaseFor(redis[name := Leased(Get(redis, name), id, deadline)], a) == LeaseFor(redis, a)
  {
  }

  /** The longer lease is set from the clock of the dequeue; a task that needs none has it already. */
  lemma ExtendOwn(s: System, w: Watch)
    requires Latest(s, w) && w.p in s.attempts && Pending(s.attempts[w.p], w.id)
    ensures Latest(DoExtend(s, w.p), w) && w.p in DoExtend(s, w.p).attempts
  {
    hide Agrees;
  }

  lemma ExtendFrame(s: System, p: nat)
    requires p in s.attempts
    ensures
      var r, a := DoExtend(s, p), s.attempts[p];
      var t := a.task;
      && r.attempts == s.attempts[p := a.(phase := Loaded)]
      && r.redis == if LongLease(t)
                    then s.redis[t.queue := Leased(Get(s.redis, t.queue), t.id, a.fetchedAt + VisibilityMs(t.timeout))]
                    else s.redis
  {
    hide Leased, LongLease, VisibilityMs, Get;
  }

  lemma ExtendElsewhere(s: System, w: Watch, p: nat)
    requires Latest(s, w) && p in s.attempts && s.attempts[p].phase == Fetched && !Of(s.attempts[p], w.id)
    ensures Latest(DoExtend(s, p), w) && p in DoExtend(s, p).attempts
  {
    hide LeaseFor, Leased, Get, LongLease, VisibilityMs, Agrees, DoExtend;
    var t := s.attempts[p].task;
    ExtendFrame(s, p);
    if w.p in s.attempts && Of(s.attempts[w.p], w.id) {
      LeasesExtended(s.redis, t.queue, t.id, s.attempts[p].fetchedAt + VisibilityMs(t.timeout), s.attempts[w.p]);
    }
  }

  lemma ExtendKeeps(s: System, w: Watch, p: nat)
    requires Latest(s, w) && p in s.attempts && s.attempts[p].phase == Fetched
    ensures Latest(DoExtend(s, p), w) && p in DoExtend(s, p).attempts
  {
    hide DoExtend, InTime;
    if Of(s.attempts[p], w.id) {
      assert Pending(s.attempts[p], w.id);
      ExtendOwn(s, w);
    } else {
      ExtendElsewhere(s, w, p);
    }
  }

  lemma LatestWorkerStep(s: System, w: Watch, e: Event)
    requires Latest(s, w) && Enabled(s, e) && ByWorker(e) && !(e.Fetch? && e.t.id == w.id)
    ensures Latest(Apply(s, e), w)
  {
    hide *;
    UnfoldWorker(s, e);
    forall r | Quiet(s, r) ensures Latest(r, w) {
      QuietKeeps(s, r, w);
    }
    match e
    case Fetch(p, node, name, t, now) => FetchElsewhere(s, w, p, node, name, t, now);
    case Extend(p) => ExtendKeeps(s, w, p);
    case ExtendFails(p, applied) =>
      ExtendKeeps(s, w, p);
      ExitQuiet(s, p);
      ExitQuiet(DoExtend(s, p), p);
      QuietKeeps(DoExtend(s, p), Exit(DoExtend(s, p), p), w);
    case Screen(p, readable) => ScreenQuiet(s, p, readable);
    case Track(p) => TrackQuiet(s, p);
    case Recheck(p, readable) => ScreenQuiet(s, p, readable);
    case Start(p, fault) => StartQuiet(s, p, fault);
    case NoHandler(p) => FailQuiet(s, p);
    case Return(p, ok, shutdown, readable) => ReturnQuiet(s, p, ok, shutdown, readable);
    case Settle(p, fault) => SettleQuiet(s, p, fault);
    case Ack(p, lost) => AckQuiet(s, p, lost);
    case Nack(p, clock, jitter, lost) => NackQuiet(s, p, RetryAt(s.attempts[p].task, clock, jitter), lost);
  }

  lemma LatestStep(s: System, w: Watch, e: Event)
    requires Latest(s, w) && Enabled(s, e) && !(e.Fetch? && e.t.id == w.id)
    ensures Latest(Apply(s, e), w)
  {
    hide *;
    if ByWorker(e) {
      LatestWorkerStep(s, w, e);
      return;
    }
    UnfoldOther(s, e);
    forall r | Quiet(s, r) ensures Latest(r, w) {
      QuietKeeps(s, r, w);
    }
    match e
    case Enqueue(t) => SubmitQuiet(s, t, 0);
    case EnqueueDelayed(t, at) => SubmitQuiet(s, t, at);
    case Compensate(t) => SubmitQuiet(s, t, 0);
    case Promote(name, now, batch, ts) => BatchQuiet(s, name, now, ts, []);
    case Reclaim(name, now, batch, ids) => BatchQuiet(s, name, 0, [], ids);
    case Crash(node) => CrashQuiet(s, node);
    case Deliver(node, id) => DeliverQuiet(s, node, id);
    case CancelRead(c, id) => CancelsQuiet(s, c, id, false);
    case CancelWrite(c, fault) => CancelWriteQuiet(s, c, fault);
    case CancelRemove(c, lost) => RemoveQuiet(s, c, lost);
    case CancelPublish(c, lost) => CancelsQuiet(s, c, "", lost);
    case Create(t, now) => OthersQuiet(s, t, now, "", {});
    case Scan(t, now, olderThan) => OthersQuiet(s, t, now, "", {});
    case Touch(id, now) => OthersQuiet(s, NoTask, now, id, {});
    case Cleanup(gone) => OthersQuiet(s, NoTask, 0, "", gone);
  }

  // ----- the theorems -----

  predicate NoFetchOf(es: seq<Event>, id: string) {
    forall i | 0 <= i < |es| :: !(es[i].Fetch? && es[i].t.id == id)
  }

  ghost predicate NonePending(s: System, id: string) {
    forall x | x in s.attempts :: !Pending(s.attempts[x], id)
  }

  /** A run in which `f` dequeues a task while no other dequeue of it is pending, and none follows. */
  ghost predicate LastFetch(pre: seq<Event>, f: Event, post: seq<Event>) {
    && f.Fetch? && Exec(Anything, pre + [f] + post).Some? && NoFetchOf(post, f.t.id)
    && Exec(Anything, pre).Some? && NonePending(Exec(Anything, pre).value, f.t.id)
  }

  lemma {:induction false} LatestHolds(pre: seq<Event>, f: Event, post: seq<Event>)
    requires LastFetch(pre, f, post)
    ensures Latest(Exec(Anything, pre + [f] + post).value, Watch(f.p, f.t.id, f.t.queue, f.now))
  {
    hide Enabled, Apply, Latest, Pending;
    var es := pre + [f] + post;
    if post == [] {
      assert es[..|es| - 1] == pre && es[|es| - 1] == f;
      FetchFacts(pre, f);
      var s := Exec(Anything, pre).value;
      FetchBegins(s, f.p, f.node, f.name, f.t, f.now);
    } else {
      var last := post[..|post| - 1];
      assert es[..|es| - 1] == pre + [f] + last && es[|es| - 1] == post[|post| - 1];
      LatestHolds(pre, f, last);
      LatestStep(Exec(Anything, pre + [f] + last).value, Watch(f.p, f.t.id, f.t.queue, f.now), post[|post| - 1]);
    }
  }

  lemma FetchFacts(pre: seq<Event>, f: Event)
    requires Exec(Anything, pre).Some? && f.Fetch? && Enabled(Exec(Anything, pre).value, f)
    ensures
      var s := Exec(Anything, pre).value;
      f.p !in s.attempts && f.t.queue == f.name && Apply(s, f) == DoFetch(s, f.p, f.node, f.name, f.t, f.now)
  {
    hide Exec, Enabled, Apply, WellShaped, IsLeast, DoFetch;
    var s := Exec(Anything, pre).value;
    Always(Anything, pre);
    UnfoldWorker(s, f);
    LeastIsMember(Get(s.redis, f.name).ready, f.t);
    QueueIs(s, f.name);
  }

  /** Dequeue returned the task at clock n, no other dequeue of it was pending and none followed: its
      lease, if it still has one, ends exactly at n plus the visibility timeout. */
  lemma LeaseIsExact(pre: seq<Event>, f: Event, post: seq<Event>)
    requires LastFetch(pre, f, post) && Agrees(f.t.queue)
    ensures
      var s := Exec(Anything, pre + [f] + post).value;
      f.p in s.attempts && s.attempts[f.p].task.id == f.t.id && s.attempts[f.p].phase != Fetched ==>
        var t := s.attempts[f.p].task;
        var lease := Get(s.redis, t.queue).lease;
        t.id in lease ==> lease[t.id] == f.now + VisibilityMs(t.timeout)
  {
    hide Exec, VisibilityMs, Get, Agrees, NonePending, NoFetchOf, Pending;
    LatestHolds(pre, f, post);
  }

  /** The same dequeue, with a declared timeout that does not overflow: a reclaim pass whose clock is before
      n + max(30 s, timeout + 10 s), in whole milliseconds, does not move the task. (Under a name that does
      not agree the copy is not in the hash that the pass looks at.) */
  lemma LeaseCoversHandler(pre: seq<Event>, f: Event, post: seq<Event>, now: int, batch: int, ids: seq<string>)
    requires LastFetch(pre, f, post)
    requires
      var s := Exec(Anything, pre + [f] + post).value;
      && f.p in s.attempts && s.attempts[f.p].task.id == f.t.id && s.attempts[f.p].phase != Fetched
      && var t := s.attempts[f.p].task;
         && t.timeout > 0 && t.timeout + LEASE_BUFFER < TWO_63
         && Enabled(s, Reclaim(t.queue, now, batch, ids))
         && now < f.now + Max(DEFAULT_VISIBILITY, t.timeout + LEASE_BUFFER) / NS_PER_MS
    ensures
      var s := Exec(Anything, pre + [f] + post).value;
      var t := s.attempts[f.p].task;
      var q, r := Get(s.redis, t.queue), Get(Apply(s, Reclaim(t.queue, now, batch, ids)).redis, t.queue);
      && (t.id in q.inflight ==> t.id in r.inflight && r.inflight[t.id] == q.inflight[t.id])
      && (Agrees(t.queue) ==> t.id !in ids && (t.id in q.lease ==> t.id in r.lease && r.lease[t.id] == q.lease[t.id]))
  {
    hide Exec, Agrees, VisibilityMs, IsRange, NonePending, NoFetchOf, Pending, LeaseFor, Get, Reclaimed, WellShaped;
    var s := Exec(Anything, pre + [f] + post).value;
    var t := s.attempts[f.p].task;
    LatestHolds(pre, f, post);
    Always(Anything, pre + [f] + post);
    ReclaimSpares(s, t.queue, now, batch, ids, t.id);
    if Agrees(t.queue) {
      LeaseIsExact(pre, f, post);
      VisibilityIs(t.timeout);
    } else {
      AttemptIs(s, f.p);
      AttemptFacts(s.history.created, s.attempts[f.p]);
      NotAtHome(s, t);
    }
  }

  lemma VisibilityIs(timeout: Duration)
    requires timeout > 0 && timeout + LEASE_BUFFER < TWO_63
    ensures VisibilityMs(timeout) == Max(DEFAULT_VISIBILITY, timeout + LEASE_BUFFER) / NS_PER_MS
  {
    hide VisibilityTimeout;
    LeaseCoversTimeoutIff(timeout);
  }

  /** A reclaim pass leaves an id alone whose lease is later than its clock, or that has none. */
  lemma ReclaimSpares(s: System, name: string, now: int, batch: int, ids: seq<string>, id: string)
    requires Enabled(s, Reclaim(name, now, batch, ids))
    ensures
      var q, r := Get(s.redis, name), Get(Apply(s, Reclaim(name, now, batch, ids)).redis, name);
      (id in q.lease ==> q.lease[id] > now) ==>
        && id !in ids
        && (id in q.inflight ==> id in r.inflight && r.inflight[id] == q.inflight[id])
        && (id in q.lease ==> id in r.lease && r.lease[id] == q.lease[id])
  {
    RangeElements(Get(s.redis, name).lease, now, batch, ids);
  }

  lemma NotAtHome(s: System, t: Task)
    requires WellShaped(s) && Known(s.history.created, t) && !Agrees(t.queue)
    ensures t.id !in Get(s.redis, t.queue).inflight
  {
    hide WellShaped, InflightName, LeaseName, Agrees;
    QueueIs(s, t.queue);
    var q := Get(s.redis, t.queue);
    if t.id in q.inflight {
      assert InflightOk(s.history.created, t.queue, q, t.id);
      NamesApart(t.queue);
    }
  }
}
