/** A delayed task is not run early. Every copy that was given an execution time reaches ready through a
    promote call whose clock had passed that time, with one exception: compensation looks at inflight only
    and can enqueue the first version of a delayed task. It selects rows by their age, so a submission is
    never dequeued early exactly if its execution time is not after the first clock at which its row can
    be selected. Retries are never early. */
module NeverEarly {
  import opened Entities
  import opened SortedSets
  import opened Keys
  import opened Queues
  import opened Timing
  import opened TaskTable
  import opened Protocol
  import opened Shape
  import opened Frames
  import opened OptimisticLock

  function Key(t: Task): (string, int) {
    (t.id, t.version)
  }

  /** The copies that are past the delayed set. */
  function Active(q: Queue): set<Task> {
    q.ready.Keys + q.inflight.Values
  }

  /** The copy came to ready rightly: promoted if it had an execution time, or by compensation. */
  predicate Placed(m: Times, t: Task) {
    t in m.compensated || (Key(t) in m.queued && (Key(t) in m.due ==> t in m.promotedAt))
  }

  // ----- each version of a task is queued once, apart from compensation -----

  ghost predicate QueuedOnce(s: System) {
    && (forall k | k in s.history.times.queued :: k in s.history.content)
    && (forall t | t in s.submitting :: (t.id, 1) !in s.history.times.queued)
    && (forall t, u | t in s.submitting && u in s.submitting && t.id == u.id :: t == u)
  }

  ghost predicate NacksFresh(s: System) {
    && (forall p | p in s.attempts && s.attempts[p].phase == Nacking ::
          s.attempts[p].task.version >= 2 && Key(s.attempts[p].task) !in s.history.times.queued)
    && (forall p, y | p in s.attempts && y in s.attempts
                      && s.attempts[p].phase == Nacking && s.attempts[y].phase == Nacking
                      && Key(s.attempts[p].task) == Key(s.attempts[y].task) :: p == y)
  }

  // ----- execution times are respected -----

  predicate TimesKept(m: Times) {
    && (forall k | k in m.due :: k in m.queued)
    && (forall t | t in m.promotedAt :: Key(t) in m.due && m.promotedAt[t] >= m.due[Key(t)])
    && (forall t | t in m.compensated :: t.version == 1 && t in m.selectedAt)
  }

  ghost predicate DelayedWaits(s: System) {
    forall name, t | t in Get(s.redis, name).delayed ::
      Key(t) in s.history.times.queued && Key(t) in s.history.times.due
      && Get(s.redis, name).delayed[t] == s.history.times.due[Key(t)]
  }

  ghost predicate ActivePlaced(s: System) {
    forall name, t | t in Active(Get(s.redis, name)) :: Placed(s.history.times, t)
  }

  ghost predicate AttemptsPlaced(s: System) {
    forall p | p in s.attempts :: Placed(s.history.times, s.attempts[p].copy)
  }

  predicate SnapshotsSelected(s: System) {
    forall t | t in s.snapshots :: t in s.history.times.selectedAt
  }

  // ----- clocks -----

  /** Bounds on the clocks of a run, as far as they are known: the latest promote clock, and the age limit
      and latest clock of the compensation scans. */
  datatype Clocks = Clocks(promoted: Option<int>, selected: Option<(int, int)>)

  predicate ClocksKept(s: System, k: Clocks) {
    var m := s.history.times;
    && (k.promoted.Some? ==> forall t | t in m.promotedAt :: m.promotedAt[t] <= k.promoted.value)
    && (k.selected.Some? ==>
          && (forall t | t in m.selectedAt ::
                t.id in m.createdAt && m.createdAt[t.id] + k.selected.value.0 < m.selectedAt[t] <= k.selected.value.1)
          && (forall id | id in s.touched :: id in m.createdAt && m.createdAt[id] <= s.touched[id])
          && m.createdAt.Keys <= s.history.created.Keys)
  }

  /** The event respects the bounds. */
  predicate OnClock(s: System, e: Event, k: Clocks) {
    && (e.Promote? && k.promoted.Some? ==> e.now <= k.promoted.value)
    && (e.Scan? && k.selected.Some? ==> e.olderThan >= k.selected.value.0 && e.now <= k.selected.value.1)
    && (e.Touch? && k.selected.Some? ==> Forward(s, e))
  }

  /** TouchUpdatedAt does not set updated_at back. */
  predicate Forward(s: System, e: Event) {
    e.Touch? && e.id in s.touched ==> s.touched[e.id] <= e.now
  }

  ghost predicate Punctual(s: System, k: Clocks) {
    && QueuedOnce(s) && NacksFresh(s) && TimesKept(s.history.times) && DelayedWaits(s) && ActivePlaced(s)
    && AttemptsPlaced(s) && SnapshotsSelected(s) && ClocksKept(s, k)
  }

  // ----- steps that bring no new copy -----

  /** Every copy in `r` was in the same part of `q`, or is one of `extra`. */
  predicate Within(q: Queue, r: Queue, extra: set<Task>) {
    && (forall t | t in Active(r) :: t in Active(q) || t in extra)
    && (forall t | t in r.delayed :: t in q.delayed && r.delayed[t] == q.delayed[t])
  }

  ghost predicate NoNewCopies(s: System, r: System, extra: set<Task>) {
    forall name :: Within(Get(s.redis, name), Get(r.redis, name), extra)
  }

  predicate FromAttempt(a: Attempt, b: Attempt) {
    b.copy == a.copy && (b.phase == Nacking ==> a.phase == Nacking && b.task == a.task)
  }

  predicate FromAttempts(a: map<nat, Attempt>, b: map<nat, Attempt>, extra: set<Task>) {
    forall p | p in b :: (p in a && FromAttempt(a[p], b[p])) || (b[p].copy in extra && b[p].phase != Nacking)
  }

  predicate AllPlaced(m: Times, ts: set<Task>) {
    forall t | t in ts :: Placed(m, t)
  }

  lemma QuietOnce(s: System, r: System)
    requires QueuedOnce(s) && r.history.times == s.history.times && r.submitting <= s.submitting
    requires Grows(s.history.content, r.history.content)
    ensures QueuedOnce(r)
  {
  }

  lemma QuietNacks(s: System, r: System, extra: set<Task>)
    requires NacksFresh(s) && r.history.times == s.history.times && FromAttempts(s.attempts, r.attempts, extra)
    ensures NacksFresh(r)
  {
  }

  lemma QuietDelayed(s: System, r: System, extra: set<Task>)
    requires DelayedWaits(s) && r.history.times == s.history.times && NoNewCopies(s, r, extra)
    ensures DelayedWaits(r)
  {
    hide Get, Active;
    forall name, t | t in Get(r.redis, name).delayed
      ensures Key(t) in r.history.times.queued && Key(t) in r.history.times.due
              && Get(r.redis, name).delayed[t] == r.history.times.due[Key(t)]
    {
      assert Within(Get(s.redis, name), Get(r.redis, name), extra);
    }
  }

  lemma QuietActive(s: System, r: System, extra: set<Task>)
    requires ActivePlaced(s) && r.history.times == s.history.times
    requires NoNewCopies(s, r, extra) && AllPlaced(s.history.times, extra)
    ensures ActivePlaced(r)
  {
    hide Get, Active, Placed;
    forall name, t | t in Active(Get(r.redis, name)) ensures Placed(r.history.times, t) {
      assert Within(Get(s.redis, name), Get(r.redis, name), extra);
    }
  }

  lemma QuietAttempts(s: System, r: System, extra: set<Task>)
    requires AttemptsPlaced(s) && r.history.times == s.history.times && FromAttempts(s.attempts, r.attempts, extra)
    requires AllPlaced(s.history.times, extra)
    ensures AttemptsPlaced(r)
  {
    hide Placed;
  }

  lemma Quiet(s: System, r: System, extra: set<Task>, k: Clocks)
    requires Punctual(s, k) && r.history.times == s.history.times && r.touched == s.touched
    requires NoNewCopies(s, r, extra) && FromAttempts(s.attempts, r.attempts, extra)
    requires AllPlaced(s.history.times, extra)
    requires Grows(s.history.content, r.history.content) && r.submitting <= s.submitting && r.snapshots <= s.snapshots
    requires r.history.created == s.history.created
    ensures Punctual(r, k)
  {
    hide QueuedOnce, NacksFresh, TimesKept, DelayedWaits, ActivePlaced, AttemptsPlaced, NoNewCopies, FromAttempts,
         AllPlaced, Grows;
    QuietOnce(s, r);
    QuietNacks(s, r, extra);
    QuietDelayed(s, r, extra);
    QuietActive(s, r, extra);
    QuietAttempts(s, r, extra);
  }

  lemma AttemptsFrom(a: map<nat, Attempt>, p: nat, b: Attempt)
    ensures FromAttempts(a, a, {}) && FromAttempts(a, a - {p}, {})
    ensures p in a && FromAttempt(a[p], b) ==> FromAttempts(a, a[p := b], {})
  {
  }

  lemma CopiesStay(s: System, r: System, name: string, q: Queue)
    requires r.redis == s.redis || (r.redis == s.redis[name := q] && Within(Get(s.redis, name), q, {}))
    ensures NoNewCopies(s, r, {})
  {
    hide Active;
    forall n ensures Within(Get(s.redis, n), Get(r.redis, n), {}) {
      if r.redis != s.redis && n == name {
        assert Get(r.redis, n) == q;
      } else {
        assert Get(r.redis, n) == Get(s.redis, n);
      }
    }
  }

  /** A step of attempt p, or of no attempt, on at most one queue. */
  lemma Local(s: System, r: System, p: nat, b: Attempt, name: string, q: Queue, k: Clocks)
    requires Punctual(s, k) && r.history.times == s.history.times
    requires r.touched == s.touched && r.history.created == s.history.created
    requires Grows(s.history.content, r.history.content) && r.submitting <= s.submitting && r.snapshots <= s.snapshots
    requires r.redis == s.redis || (r.redis == s.redis[name := q] && Within(Get(s.redis, name), q, {}))
    requires r.attempts == s.attempts || r.attempts == s.attempts - {p}
             || (p in s.attempts && r.attempts == s.attempts[p := b] && FromAttempt(s.attempts[p], b))
    ensures Punctual(r, k)
  {
    hide Punctual, NoNewCopies, FromAttempts, FromAttempt, Grows, Within, Get, AllPlaced;
    AttemptsFrom(s.attempts, p, b);
    CopiesStay(s, r, name, q);
    NonePlaced(s.history.times);
    Quiet(s, r, {}, k);
  }

  lemma NonePlaced(m: Times)
    ensures AllPlaced(m, {})
  {
  }

  /** The same, with the queues untouched. */
  lemma Moved(s: System, r: System, p: nat, b: Attempt, k: Clocks)
    requires Punctual(s, k) && r.history.times == s.history.times
    requires r.touched == s.touched && r.history.created == s.history.created
    requires Grows(s.history.content, r.history.content) && r.submitting <= s.submitting
    requires r.snapshots <= s.snapshots && r.redis == s.redis
    requires r.attempts == s.attempts || r.attempts == s.attempts - {p}
             || (p in s.attempts && r.attempts == s.attempts[p := b] && FromAttempt(s.attempts[p], b))
    ensures Punctual(r, k)
  {
    hide Punctual, FromAttempt, Grows, Within, Get;
    Local(s, r, p, b, "", EmptyQueue, k);
  }

  lemma NothingNewLeased(q: Queue, id: string, at: int)
    ensures Within(q, Leased(q, id, at), {})
  {
  }

  lemma NothingNewUnleased(q: Queue, id: string)
    ensures Within(q, Unleased(q, id), {}) && Within(q, Acked(q, id), {}) && Within(q, Removed(q, id), {})
  {
    ValuesMinus(q.inflight, {id});
  }

  lemma NothingNewReclaimed(q: Queue, ids: set<string>)
    ensures Within(q, Reclaimed(q, ids), {})
  {
    ReclaimKeepsCopies(q, ids);
    assert Active(Reclaimed(q, ids)) == Active(q);
  }

  lemma NothingNewDequeued(redis: map<string, Queue>, name: string, t: Task, deadline: int, n: string)
    ensures Within(Get(redis, n), Get(Dequeued(redis, name, t, deadline), n), {t})
  {
    hide InflightName, LeaseName;
  }

  lemma ValuesMinus<K, V>(m: map<K, V>, ks: set<K>)
    ensures (m - ks).Values <= m.Values
  {
    forall v | v in (m - ks).Values ensures v in m.Values {
      var k :| k in m - ks && (m - ks)[k] == v;
      assert m[k] == v;
    }
  }

  // ----- steps that queue a new version -----

  /** The history after queueing t, with an execution time or at once. */
  predicate Gains(m: Times, n: Times, t: Task, at: Option<int>) {
    n == m.(queued := m.queued + {Key(t)}, due := if at.Some? then m.due[Key(t) := at.value] else m.due)
  }

  predicate NewCopy(q: Queue, r: Queue, t: Task, at: Option<int>) {
    && (forall u | u in Active(r) :: u in Active(q) || (u == t && at.None?))
    && (forall u | u in r.delayed ::
          (u in q.delayed && r.delayed[u] == q.delayed[u]) || (u == t && at == Some(r.delayed[u])))
  }

  /** No copy has this version yet, unless by compensation. */
  predicate Unused(s: System, t: Task) {
    && Key(t) !in s.history.times.queued && Key(t) in s.history.content
    && Key(t) !in s.history.times.due && t !in s.history.times.promotedAt
  }

  lemma UnusedIs(s: System, t: Task)
    requires TimesKept(s.history.times) && Key(t) !in s.history.times.queued && Key(t) in s.history.content
    ensures Unused(s, t)
  {
  }

  lemma BringPlaced(m: Times, n: Times, t: Task, at: Option<int>, u: Task)
    requires Gains(m, n, t, at) && Key(t) !in m.queued && Placed(m, u)
    ensures Placed(n, u)
  {
  }

  lemma BringOnce(s: System, r: System, t: Task, at: Option<int>)
    requires QueuedOnce(s) && Unused(s, t) && Gains(s.history.times, r.history.times, t, at)
    requires r.history.content == s.history.content && r.submitting <= s.submitting
    requires forall u | u in r.submitting && u.id == t.id :: t.version != 1
    ensures QueuedOnce(r)
  {
  }

  lemma BringNacks(s: System, r: System, t: Task, at: Option<int>)
    requires NacksFresh(s) && Gains(s.history.times, r.history.times, t, at) && FromAttempts(s.attempts, r.attempts, {})
    requires forall p | p in r.attempts && r.attempts[p].phase == Nacking :: Key(r.attempts[p].task) != Key(t)
    ensures NacksFresh(r)
  {
  }

  lemma BringTimes(s: System, r: System, t: Task, at: Option<int>)
    requires TimesKept(s.history.times) && Unused(s, t) && Gains(s.history.times, r.history.times, t, at)
    ensures TimesKept(r.history.times)
  {
    forall u | u in r.history.times.promotedAt ensures Key(u) in s.history.times.due {
    }
  }

  lemma BringDelayed(s: System, r: System, t: Task, at: Option<int>, q: Queue)
    requires DelayedWaits(s) && Unused(s, t) && Gains(s.history.times, r.history.times, t, at)
    requires r.redis == s.redis[t.queue := q] && NewCopy(Get(s.redis, t.queue), q, t, at)
    ensures DelayedWaits(r)
  {
    hide Active;
    forall name, u | u in Get(r.redis, name).delayed
      ensures Key(u) in r.history.times.queued && Key(u) in r.history.times.due
              && Get(r.redis, name).delayed[u] == r.history.times.due[Key(u)]
    {
      if name != t.queue {
        assert Get(r.redis, name) == Get(s.redis, name);
      }
    }
  }

  lemma BringActive(s: System, r: System, t: Task, at: Option<int>, q: Queue)
    requires ActivePlaced(s) && Unused(s, t) && Gains(s.history.times, r.history.times, t, at)
    requires r.redis == s.redis[t.queue := q] && NewCopy(Get(s.redis, t.queue), q, t, at)
    ensures ActivePlaced(r)
  {
    hide Active, Placed, Gains;
    forall name, u | u in Active(Get(r.redis, name)) ensures Placed(r.history.times, u) {
      if name == t.queue && u !in Active(Get(s.redis, name)) {
        DirectlyPlaced(s, r, t);
      } else {
        assert name != t.queue ==> Get(r.redis, name) == Get(s.redis, name);
        BringPlaced(s.history.times, r.history.times, t, at, u);
      }
    }
  }

  lemma DirectlyPlaced(s: System, r: System, t: Task)
    requires Unused(s, t) && Gains(s.history.times, r.history.times, t, None)
    ensures Placed(r.history.times, t)
  {
  }

  lemma BringAttempts(s: System, r: System, t: Task, at: Option<int>)
    requires AttemptsPlaced(s) && Unused(s, t) && Gains(s.history.times, r.history.times, t, at)
    requires FromAttempts(s.attempts, r.attempts, {})
    ensures AttemptsPlaced(r)
  {
    hide Placed, Gains;
    forall p | p in r.attempts ensures Placed(r.history.times, r.attempts[p].copy) {
      BringPlaced(s.history.times, r.history.times, t, at, r.attempts[p].copy);
    }
  }

  lemma BringClocks(s: System, r: System, t: Task, at: Option<int>, k: Clocks)
    requires ClocksKept(s, k) && Gains(s.history.times, r.history.times, t, at) && r.touched == s.touched
    requires r.history.created == s.history.created
    ensures ClocksKept(r, k)
  {
  }

  lemma Brings(s: System, r: System, t: Task, at: Option<int>, q: Queue, k: Clocks)
    requires Punctual(s, k) && Key(t) !in s.history.times.queued && Key(t) in s.history.content
    requires Gains(s.history.times, r.history.times, t, at) && r.history.content == s.history.content
    requires r.redis == s.redis[t.queue := q] && NewCopy(Get(s.redis, t.queue), q, t, at)
    requires FromAttempts(s.attempts, r.attempts, {}) && r.submitting <= s.submitting && r.snapshots <= s.snapshots
    requires r.touched == s.touched && r.history.created == s.history.created
    requires forall u | u in r.submitting && u.id == t.id :: t.version != 1
    requires forall p | p in r.attempts && r.attempts[p].phase == Nacking :: Key(r.attempts[p].task) != Key(t)
    ensures Punctual(r, k)
  {
    hide QueuedOnce, NacksFresh, TimesKept, DelayedWaits, ActivePlaced, AttemptsPlaced, NewCopy, FromAttempts, Unused,
         Get, ClocksKept;
    UnusedIs(s, t);
    BringOnce(s, r, t, at);
    BringNacks(s, r, t, at);
    BringTimes(s, r, t, at);
    BringDelayed(s, r, t, at, q);
    BringActive(s, r, t, at, q);
    BringAttempts(s, r, t, at);
    BringClocks(s, r, t, at, k);
  }

  lemma NewCopyIs(q: Queue, t: Task, at: int)
    ensures NewCopy(q, Enqueued(q, t), t, None)
    ensures NewCopy(q, Queues.Delayed(q, t, at), t, Some(at))
  {
  }

  lemma NewCopyNacked(q: Queue, t: Task, at: int)
    requires t.CanRetry()
    ensures NewCopy(q, Nacked(q, t, at), t, if t.retryBackoff > 0 then Some(at) else None)
  {
    NothingNewUnleased(q, t.id);
  }

  /** What the other invariants say of a task whose first enqueue is still to come. */
  lemma SubmitFacts(s: System, t: Task, k: Clocks)
    requires WellShaped(s) && Recorded(s) && Punctual(s, k) && t in s.submitting
    ensures t.version == 1 && Key(t) !in s.history.times.queued && Key(t) in s.history.content
    ensures forall u | u in s.submitting && u.id == t.id :: u == t
    ensures forall p | p in s.attempts && s.attempts[p].phase == Nacking :: Key(s.attempts[p].task) != Key(t)
  {
    hide WellShaped, RowsRecorded, CopiesLive, AttemptsLive, CancellersLive, TimesKept, DelayedWaits, ActivePlaced,
         AttemptsPlaced, ClocksKept;
    FreshIs(s, t);
  }

  lemma PunctualEnqueue(s: System, t: Task, k: Clocks)
    requires WellShaped(s) && Recorded(s) && Punctual(s, k) && t in s.submitting
    ensures Punctual(DoEnqueue(s, t), k)
  {
    hide WellShaped, Recorded, Punctual, FromAttempts, NewCopy, Get, Enqueued;
    SubmitFacts(s, t, k);
    AttemptsFrom(s.attempts, 0, NoAttempt);
    NewCopyIs(Get(s.redis, t.queue), t, 0);
    Brings(s, DoEnqueue(s, t), t, None, Enqueued(Get(s.redis, t.queue), t), k);
  }

  lemma PunctualDelayed(s: System, t: Task, at: int, k: Clocks)
    requires WellShaped(s) && Recorded(s) && Punctual(s, k) && t in s.submitting
    ensures Punctual(DoEnqueueDelayed(s, t, at), k)
  {
    hide WellShaped, Recorded, Punctual, FromAttempts, NewCopy, Get, Queues.Delayed;
    SubmitFacts(s, t, k);
    AttemptsFrom(s.attempts, 0, NoAttempt);
    NewCopyIs(Get(s.redis, t.queue), t, at);
    Brings(s, DoEnqueueDelayed(s, t, at), t, Some(at), Queues.Delayed(Get(s.redis, t.queue), t, at), k);
  }

  /** A worker about to Nack holds a version that it alone committed. */
  lemma NackFacts(s: System, p: nat, k: Clocks)
    requires WellShaped(s) && Recorded(s) && p in s.attempts && s.attempts[p].phase == Nacking && Punctual(s, k)
    ensures
      var t := s.attempts[p].task;
      && t.CanRetry() && t.version >= 2 && Key(t) !in s.history.times.queued && Key(t) in s.history.content
      && forall y | y in s.attempts && y != p && s.attempts[y].phase == Nacking :: Key(s.attempts[y].task) != Key(t)
  {
    hide WellShaped, RowsRecorded, CopiesLive, PoolsLive, CancellersLive, QueuedOnce, TimesKept, DelayedWaits,
         ActivePlaced, AttemptsPlaced, ClocksKept;
    AttemptIs(s, p);
    assert AttemptLive(s.history.content, s.attempts[p]);
  }

  lemma PunctualNack(s: System, p: nat, at: int, k: Clocks)
    requires WellShaped(s) && Recorded(s) && p in s.attempts && s.attempts[p].phase == Nacking && Punctual(s, k)
    ensures Punctual(DoNack(s, p, at, false), k)
  {
    hide WellShaped, Recorded, Punctual, FromAttempts, NewCopy, Get, Nacked, Rivals;
    var t, r := s.attempts[p].task, DoNack(s, p, at, false);
    NackFacts(s, p, k);
    AttemptsFrom(s.attempts, p, NoAttempt);
    NewCopyNacked(Get(s.redis, t.queue), t, at);
    Brings(s, r, t, if t.retryBackoff > 0 then Some(at) else None, Nacked(Get(s.redis, t.queue), t, at), k);
  }

  // ----- the other events -----

  lemma CreateOnce(s: System, t: Task, now: int)
    requires WellShaped(s) && RowsRecorded(s) && QueuedOnce(s) && t.id !in s.history.created
    ensures QueuedOnce(DoCreate(s, t, now))
  {
    hide WellShaped;
    forall u | u in s.submitting ensures u.id != t.id {
      FreshIs(s, u);
    }
  }

  lemma CreateClocks(s: System, t: Task, now: int, k: Clocks)
    requires ClocksKept(s, k) && t.id !in s.history.created
    ensures ClocksKept(DoCreate(s, t, now), k)
  {
    var r := DoCreate(s, t, now);
    assert k.selected.Some? ==> t.id !in s.history.times.createdAt;
  }

  lemma CreateTimes(m: Times, n: Times)
    requires TimesKept(m) && n == m.(createdAt := n.createdAt)
    ensures TimesKept(n)
  {
  }

  /** Steps that only note a clock. */
  lemma Noted(s: System, r: System)
    requires NacksFresh(s) && DelayedWaits(s) && ActivePlaced(s) && AttemptsPlaced(s)
    requires r.redis == s.redis && r.attempts == s.attempts
    requires r.history.times
             == s.history.times.(createdAt := r.history.times.createdAt, selectedAt := r.history.times.selectedAt)
    ensures NacksFresh(r) && DelayedWaits(r) && ActivePlaced(r) && AttemptsPlaced(r)
  {
    hide Active, Get;
    assert forall t :: Placed(r.history.times, t) == Placed(s.history.times, t);
  }

  lemma PunctualCreate(s: System, t: Task, now: int, k: Clocks)
    requires WellShaped(s) && Recorded(s) && Punctual(s, k) && t.id !in s.history.created
    ensures Punctual(DoCreate(s, t, now), k)
  {
    hide WellShaped, Recorded, RowsRecorded, QueuedOnce, NacksFresh, TimesKept, DelayedWaits, ActivePlaced,
         AttemptsPlaced, ClocksKept;
    RowsAre(s);
    Noted(s, DoCreate(s, t, now));
    CreateOnce(s, t, now);
    CreateClocks(s, t, now, k);
    CreateTimes(s.history.times, DoCreate(s, t, now).history.times);
  }

  lemma PunctualFetch(s: System, p: nat, node: string, name: string, t: Task, now: int, k: Clocks)
    requires Punctual(s, k) && p !in s.attempts && t in Get(s.redis, name).ready
    ensures Punctual(DoFetch(s, p, node, name, t, now), k)
  {
    hide Punctual, Grows, Dequeued, Within, AllPlaced, Get;
    var r := DoFetch(s, p, node, name, t, now);
    GrowsSelf(s);
    ReadyPlaced(s, name, t, k);
    forall n ensures Within(Get(s.redis, n), Get(r.redis, n), {t}) {
      NothingNewDequeued(s.redis, name, t, now + DEFAULT_VISIBILITY / NS_PER_MS, n);
    }
    Quiet(s, r, {t}, k);
  }

  lemma ReadyPlaced(s: System, name: string, t: Task, k: Clocks)
    requires Punctual(s, k) && t in Get(s.redis, name).ready
    ensures AllPlaced(s.history.times, {t})
  {
    assert t in Active(Get(s.redis, name));
  }

  /** The version that a successful retry write commits is new, so no copy and no other worker has it. */
  lemma SettleNacks(s: System, r: System, p: nat, fault: Fault)
    requires RowsRecorded(s) && AttemptsLive(s) && QueuedOnce(s) && NacksFresh(s)
    requires p in s.attempts && s.attempts[p].phase == Settling && s.attempts[p].task.version >= 1
    requires r.history.times == s.history.times && p in r.attempts
    requires r.attempts
             == s.attempts[p := s.attempts[p].(task := Bumped(s.attempts[p].task), phase := r.attempts[p].phase)]
    requires r.attempts[p].phase == Nacking ==> Succeeds(s.rows, s.attempts[p].task, fault)
    ensures NacksFresh(r)
  {
    var t := s.attempts[p].task;
    if r.attempts[p].phase == Nacking {
      assert (t.id, t.version + 1) !in s.history.content;
      forall y | y in s.attempts && y != p && s.attempts[y].phase == Nacking
        ensures Key(s.attempts[y].task) != (t.id, t.version + 1)
      {
        assert AttemptLive(s.history.content, s.attempts[y]);
      }
    }
  }

  lemma LiveParts(s: System)
    requires Recorded(s)
    ensures AttemptsLive(s) && RowsRecorded(s)
  {
    hide AttemptsLive, RowsRecorded;
  }

  lemma AttemptVersion(s: System, p: nat)
    requires WellShaped(s) && p in s.attempts
    ensures s.attempts[p].task.version >= 1
    ensures s.attempts[p].phase == Settling ==> s.attempts[p].task.state != Pending
  {
    hide WellShaped;
    AttemptIs(s, p);
  }

  lemma CopiesKept(s: System, r: System, p: nat, b: Attempt)
    requires AttemptsPlaced(s) && p in s.attempts && r.attempts == s.attempts[p := b] && b.copy == s.attempts[p].copy
    requires r.history.times == s.history.times
    ensures AttemptsPlaced(r)
  {
  }

  lemma SettleMoves(s: System, p: nat, fault: Fault, k: Clocks)
    requires WellShaped(s) && Recorded(s) && Punctual(s, k) && p in s.attempts && s.attempts[p].phase == Settling
    requires s.attempts[p].task.state == Retrying ==> Succeeds(s.rows, s.attempts[p].task, fault)
    ensures Punctual(DoSettle(s, p, fault), k)
  {
    hide WellShaped, Recorded, RowsRecorded, QueuedOnce, NacksFresh, TimesKept, DelayedWaits, ActivePlaced,
         AttemptsPlaced,
         NoNewCopies, AllPlaced, Grows, Within, Get, Write, LockHolds, AttemptsLive, Succeeds, Commits;
    var r, a := DoSettle(s, p, fault), s.attempts[p];
    LiveParts(s);
    AttemptVersion(s, p);
    WriteFrame(s, a.task, fault);
    WriteRecords(s, a.task, fault);
    CopiesStay(s, r, "", EmptyQueue);
    NonePlaced(s.history.times);
    QuietOnce(s, r);
    QuietDelayed(s, r, {});
    QuietActive(s, r, {});
    SettleNacks(s, r, p, fault);
    CopiesKept(s, r, p, r.attempts[p]);
  }

  lemma PunctualSettle(s: System, p: nat, fault: Fault, k: Clocks)
    requires WellShaped(s) && Recorded(s) && Punctual(s, k) && p in s.attempts && s.attempts[p].phase == Settling
    ensures Punctual(DoSettle(s, p, fault), k)
  {
    hide WellShaped, Recorded, RowsRecorded, Punctual, Grows, Write, LockHolds, Succeeds, Commits, FromAttempt, Rivals;
    var a := s.attempts[p];
    if a.task.state == Retrying && !Succeeds(s.rows, a.task, fault) {
      RowsAre(s);
      AttemptVersion(s, p);
      WriteFrame(s, a.task, fault);
      WriteRecords(s, a.task, fault);
      Moved(s, DoSettle(s, p, fault), p, NoAttempt, k);
    } else {
      SettleMoves(s, p, fault, k);
    }
  }

  // A promote call stamps what it moves.

  predicate Movable(s: System, name: string, now: int, ts: seq<Task>) {
    Elements(ts) <= Get(s.redis, name).delayed.Keys
    && forall t | t in Elements(ts) :: Get(s.redis, name).delayed[t] <= now
  }

  lemma PromoteTimes(s: System, name: string, now: int, ts: seq<Task>)
    requires TimesKept(s.history.times) && DelayedWaits(s) && Movable(s, name, now, ts)
    ensures TimesKept(DoPromote(s, name, now, ts).history.times)
  {
    hide Promoted;
    var m := s.history.times;
    forall t | t in Elements(ts) ensures Key(t) in m.due && m.due[Key(t)] <= now {
    }
  }

  lemma PromoteDelayed(s: System, name: string, now: int, ts: seq<Task>)
    requires DelayedWaits(s)
    ensures DelayedWaits(DoPromote(s, name, now, ts))
  {
    var r := DoPromote(s, name, now, ts);
    forall n, t | t in Get(r.redis, n).delayed
      ensures Key(t) in r.history.times.queued && Key(t) in r.history.times.due
              && Get(r.redis, n).delayed[t] == r.history.times.due[Key(t)]
    {
      assert t in Get(s.redis, n).delayed;
    }
  }

  lemma PromotedActive(q: Queue, ts: set<Task>)
    ensures Active(Promoted(q, ts)) == Active(q) + ts
  {
    PromoteKeepsCopies(q, ts);
  }

  lemma StillPlaced(m: Times, ts: seq<Task>, now: int, t: Task)
    requires Placed(m, t) || (t in Elements(ts) && Key(t) in m.queued)
    ensures Placed(Stamped(m, ts, now), t)
  {
  }

  lemma PromoteActive(s: System, name: string, now: int, ts: seq<Task>)
    requires ActivePlaced(s) && DelayedWaits(s) && Movable(s, name, now, ts)
    ensures ActivePlaced(DoPromote(s, name, now, ts))
  {
    hide Promoted, Active, Placed, Stamped;
    var r, q := DoPromote(s, name, now, ts), Get(s.redis, name);
    PromotedActive(q, Elements(ts));
    forall n, t | t in Active(Get(r.redis, n)) ensures Placed(r.history.times, t) {
      if n == name && t in Elements(ts) {
        assert t in q.delayed;
      } else {
        assert t in Active(Get(s.redis, n));
      }
      StillPlaced(s.history.times, ts, now, t);
    }
  }

  lemma PromoteRest(s: System, name: string, now: int, ts: seq<Task>, k: Clocks)
    requires QueuedOnce(s) && NacksFresh(s) && AttemptsPlaced(s) && SnapshotsSelected(s) && ClocksKept(s, k)
    requires k.promoted.Some? ==> now <= k.promoted.value
    ensures
      var r := DoPromote(s, name, now, ts);
      QueuedOnce(r) && NacksFresh(r) && AttemptsPlaced(r) && SnapshotsSelected(r) && ClocksKept(r, k)
  {
    hide Promoted, Get;
  }

  lemma PunctualPromote(s: System, name: string, now: int, ts: seq<Task>, k: Clocks)
    requires Punctual(s, k) && Movable(s, name, now, ts) && (k.promoted.Some? ==> now <= k.promoted.value)
    ensures Punctual(DoPromote(s, name, now, ts), k)
  {
    hide QueuedOnce, NacksFresh, TimesKept, DelayedWaits, ActivePlaced, AttemptsPlaced, SnapshotsSelected, ClocksKept,
         DoPromote, Movable;
    PromoteTimes(s, name, now, ts);
    PromoteDelayed(s, name, now, ts);
    PromoteActive(s, name, now, ts);
    PromoteRest(s, name, now, ts, k);
  }

  // Compensation.

  lemma ScanClocks(s: System, t: Task, now: int, olderThan: int, k: Clocks)
    requires ClocksKept(s, k) && Stale(s, t, now, olderThan) && OnClock(s, Scan(t, now, olderThan), k)
    ensures ClocksKept(DoScan(s, t, now), k)
  {
  }

  lemma PunctualScan(s: System, t: Task, now: int, olderThan: int, k: Clocks)
    requires Punctual(s, k) && Stale(s, t, now, olderThan) && OnClock(s, Scan(t, now, olderThan), k)
    ensures Punctual(DoScan(s, t, now), k)
  {
    hide NacksFresh, DelayedWaits, ActivePlaced, AttemptsPlaced, ClocksKept, Stale, OnClock;
    Noted(s, DoScan(s, t, now));
    ScanClocks(s, t, now, olderThan, k);
  }

  lemma PunctualTouch(s: System, id: string, now: int, k: Clocks)
    requires Punctual(s, k) && OnClock(s, Touch(id, now), k)
    ensures Punctual(DoTouch(s, id, now), k)
  {
    hide QueuedOnce, NacksFresh, TimesKept, Get, Active, Placed;
    var r := DoTouch(s, id, now);
    assert QueuedOnce(r) && NacksFresh(r) by {
      TouchKeeps(s, r);
    }
  }

  lemma TouchKeeps(s: System, r: System)
    requires QueuedOnce(s) && NacksFresh(s) && r == s.(touched := r.touched)
    ensures QueuedOnce(r) && NacksFresh(r)
  {
  }

  /** A compensated copy is placed whatever its execution time, and it is a first version. */
  lemma CompensateTimes(m: Times, n: Times, t: Task)
    requires TimesKept(m) && n == m.(compensated := m.compensated + {t}) && t.version == 1 && t in m.selectedAt
    ensures TimesKept(n) && Placed(n, t)
    ensures forall u :: Placed(m, u) ==> Placed(n, u)
  {
  }

  lemma CompensateActive(s: System, t: Task, q: Queue)
    requires ActivePlaced(s) && DelayedWaits(s) && q == Get(s.redis, t.queue) && t.id !in q.inflight
    requires
      var m := s.history.times;
      var n := m.(compensated := m.compensated + {t});
      Placed(n, t) && forall u :: Placed(m, u) ==> Placed(n, u)
    ensures ActivePlaced(DoCompensate(s, t)) && DelayedWaits(DoCompensate(s, t))
  {
    hide Placed;
    var r := DoCompensate(s, t);
    forall n, u | u in Active(Get(r.redis, n)) ensures Placed(r.history.times, u) {
      assert u == t || u in Active(Get(s.redis, n));
    }
    forall n ensures Get(r.redis, n).delayed == Get(s.redis, n).delayed {
    }
  }

  lemma CompensateRest(s: System, t: Task, k: Clocks)
    requires QueuedOnce(s) && NacksFresh(s) && AttemptsPlaced(s) && SnapshotsSelected(s) && ClocksKept(s, k)
    ensures
      var r := DoCompensate(s, t);
      QueuedOnce(r) && NacksFresh(r) && AttemptsPlaced(r) && SnapshotsSelected(r) && ClocksKept(r, k)
  {
    hide Compensated, Get;
  }

  lemma PunctualCompensate(s: System, t: Task, k: Clocks)
    requires WellShaped(s) && Punctual(s, k) && t in s.snapshots
    ensures Punctual(DoCompensate(s, t), k)
  {
    hide WellShaped, QueuedOnce, NacksFresh, TimesKept, DelayedWaits, ActivePlaced, AttemptsPlaced, ClocksKept,
         DoCompensate, Placed;
    var q := Get(s.redis, t.queue);
    FreshIs(s, t);
    CompensateIs(s, t);
    if t.id !in q.inflight {
      CompensateTimes(s.history.times, DoCompensate(s, t).history.times, t);
      CompensateActive(s, t, q);
      CompensateRest(s, t, k);
    }
  }

  lemma CompensateIs(s: System, t: Task)
    ensures
      var r, m := DoCompensate(s, t), s.history.times;
      if t.id in Get(s.redis, t.queue).inflight then r == s
      else r.history.times == m.(compensated := m.compensated + {t})
  {
    hide Compensated;
  }

  // Steps that bring nothing.

  lemma PunctualExtend(s: System, p: nat, k: Clocks)
    requires Punctual(s, k) && p in s.attempts && s.attempts[p].phase == Fetched
    ensures Punctual(DoExtend(s, p), k) && p in DoExtend(s, p).attempts
  {
    hide Punctual, Grows, Within, Get, Leased, LongLease, VisibilityMs;
    var a, r := s.attempts[p], DoExtend(s, p);
    var q := Get(s.redis, a.task.queue);
    var deadline := a.fetchedAt + VisibilityMs(a.task.timeout);
    GrowsSelf(s);
    NothingNewLeased(q, a.task.id, deadline);
    Local(s, r, p, a.(phase := Loaded), a.task.queue, Leased(q, a.task.id, deadline), k);
  }

  lemma PunctualExit(s: System, p: nat, k: Clocks)
    requires Punctual(s, k) && p in s.attempts
    ensures Punctual(Exit(s, p), k)
  {
    hide Punctual, Grows, FromAttempt, Rivals;
    GrowsSelf(s);
    Moved(s, Exit(s, p), p, NoAttempt, k);
  }

  lemma PunctualScreen(s: System, p: nat, readable: bool, k: Clocks)
    requires Punctual(s, k) && p in s.attempts
    ensures Punctual(DoScreen(s, p, readable), k) && Punctual(DoRecheck(s, p, readable), k)
  {
    hide Punctual, Grows, SeesTerminal;
    GrowsSelf(s);
    Moved(s, DoScreen(s, p, readable), p, DoScreen(s, p, readable).attempts[p], k);
    Moved(s, DoRecheck(s, p, readable), p, DoRecheck(s, p, readable).attempts[p], k);
  }

  lemma PunctualTrack(s: System, p: nat, k: Clocks)
    requires Punctual(s, k) && p in s.attempts
    ensures Punctual(DoTrack(s, p), k)
  {
    hide Punctual, Grows, Rivals;
    GrowsSelf(s);
    Moved(s, DoTrack(s, p), p, DoTrack(s, p).attempts[p], k);
  }

  lemma PunctualStart(s: System, p: nat, fault: Fault, k: Clocks)
    requires WellShaped(s) && Recorded(s) && Punctual(s, k) && p in s.attempts
    ensures Punctual(DoStart(s, p, fault), k)
  {
    hide WellShaped, Recorded, RowsRecorded, Punctual, Grows, Write, Succeeds, LockHolds, Commits;
    var t := s.attempts[p].task.(state := Running);
    RowsAre(s);
    AttemptVersion(s, p);
    WriteFrame(s, t, fault);
    WriteRecords(s, t, fault);
    Moved(s, DoStart(s, p, fault), p, DoStart(s, p, fault).attempts[p], k);
  }

  lemma PunctualFail(s: System, p: nat, k: Clocks)
    requires Punctual(s, k) && p in s.attempts
    ensures Punctual(DoFail(s, p), k) && Punctual(MoveTo(s, p, Acking), k)
    ensures Punctual(Decide(s, p, s.attempts[p].task.(state := Completed)), k)
  {
    hide Punctual, Grows, FailedOnce;
    GrowsSelf(s);
    var done := Decide(s, p, s.attempts[p].task.(state := Completed));
    Moved(s, DoFail(s, p), p, DoFail(s, p).attempts[p], k);
    Moved(s, MoveTo(s, p, Acking), p, s.attempts[p].(phase := Acking), k);
    Moved(s, done, p, done.attempts[p], k);
  }

  lemma PunctualReturn(s: System, p: nat, ok: bool, shutdown: bool, readable: bool, k: Clocks)
    requires Punctual(s, k) && p in s.attempts
    ensures Punctual(DoReturn(s, p, ok, shutdown, readable), k)
  {
    hide Punctual, DoFail, MoveTo, Decide;
    PunctualFail(s, p, k);
  }

  lemma PunctualAck(s: System, p: nat, lost: bool, k: Clocks)
    requires Punctual(s, k) && p in s.attempts
    ensures Punctual(DoAck(s, p, lost), k)
  {
    hide Punctual, Grows, Within, Get, Acked, FromAttempt, Rivals;
    var t := s.attempts[p].task;
    var q := Get(s.redis, t.queue);
    GrowsSelf(s);
    NothingNewUnleased(q, t.id);
    Local(s, DoAck(s, p, lost), p, NoAttempt, t.queue, Acked(q, t.id), k);
  }

  lemma PunctualNackOrNot(s: System, p: nat, at: int, lost: bool, k: Clocks)
    requires WellShaped(s) && Recorded(s) && Punctual(s, k) && p in s.attempts && s.attempts[p].phase == Nacking
    ensures Punctual(DoNack(s, p, at, lost), k)
  {
    hide WellShaped, Recorded, Punctual, Nacked, Exit, Get;
    if lost {
      PunctualExit(s, p, k);
    } else {
      PunctualNack(s, p, at, k);
    }
  }

  lemma PunctualCrash(s: System, node: string, k: Clocks)
    requires Punctual(s, k)
    ensures Punctual(DoCrash(s, node), k)
  {
    hide Punctual, Grows, NoNewCopies, Within, Get, AllPlaced;
    GrowsSelf(s);
    CopiesStay(s, DoCrash(s, node), "", EmptyQueue);
    NonePlaced(s.history.times);
    Quiet(s, DoCrash(s, node), {}, k);
  }

  lemma PunctualDeliver(s: System, node: string, id: string, k: Clocks)
    requires Punctual(s, k)
    ensures Punctual(DoDeliver(s, node, id), k)
  {
    hide Punctual, Grows, DoDeliver;
    GrowsSelf(s);
    var p, b := DeliverMoves(s, node, id);
    Moved(s, DoDeliver(s, node, id), p, b, k);
  }

  lemma PunctualReclaim(s: System, name: string, ids: seq<string>, k: Clocks)
    requires Punctual(s, k)
    ensures Punctual(OnQueue(s, name, Reclaimed(Get(s.redis, name), Elements(ids))), k)
  {
    hide Punctual, Grows, Within, Get, Reclaimed, FromAttempt;
    GrowsSelf(s);
    NothingNewReclaimed(Get(s.redis, name), Elements(ids));
    Local(s, OnQueue(s, name, Reclaimed(Get(s.redis, name), Elements(ids))), 0, NoAttempt, name, Reclaimed(Get(s.redis,
        name), Elements(ids)), k);
  }

  lemma PunctualCancelWrite(s: System, c: nat, fault: Fault, k: Clocks)
    requires WellShaped(s) && Recorded(s) && Punctual(s, k) && c in s.cancellers
    ensures Punctual(DoCancelWrite(s, c, fault), k)
  {
    hide WellShaped, Recorded, RowsRecorded, Punctual, Grows, Write, Succeeds, Commits, LockHolds, FromAttempt;
    var t := s.cancellers[c].task;
    RowsAre(s);
    CancellerIs(s, c);
    WriteFrame(s, t, fault);
    WriteRecords(s, t, fault);
    Moved(s, DoCancelWrite(s, c, fault), 0, NoAttempt, k);
  }

  lemma PunctualCancelRemove(s: System, c: nat, lost: bool, k: Clocks)
    requires Punctual(s, k) && c in s.cancellers
    ensures Punctual(DoCancelRemove(s, c, lost), k)
  {
    hide Punctual, Grows, Within, Get, Removed, FromAttempt;
    var t, r := s.cancellers[c].task, DoCancelRemove(s, c, lost);
    GrowsSelf(s);
    NothingNewUnleased(Get(s.redis, t.queue), t.id);
    Local(s, r, 0, NoAttempt, t.queue, Removed(Get(s.redis, t.queue), t.id), k);
  }

  lemma PunctualOther(s: System, c: nat, id: string, lost: bool, gone: set<string>, k: Clocks)
    requires Punctual(s, k)
    ensures Punctual(DoCleanup(s, gone), k)
    ensures id in s.rows ==> Punctual(DoCancelRead(s, c, id), k)
    ensures c in s.cancellers ==> Punctual(DoCancelPublish(s, c, lost), k)
  {
    hide Punctual, Grows, FromAttempt;
    GrowsSelf(s);
    Moved(s, DoCleanup(s, gone), 0, NoAttempt, k);
    if id in s.rows {
      Moved(s, DoCancelRead(s, c, id), 0, NoAttempt, k);
    }
    if c in s.cancellers {
      Moved(s, DoCancelPublish(s, c, lost), 0, NoAttempt, k);
    }
  }

  lemma PromoteFits(s: System, name: string, now: int, batch: int, ts: seq<Task>)
    requires IsRange(Get(s.redis, name).delayed, now, batch, ts)
    ensures Movable(s, name, now, ts)
  {
    RangeElements(Get(s.redis, name).delayed, now, batch, ts);
  }

  lemma ClockIs(s: System, e: Event, k: Clocks)
    requires OnClock(s, e, k)
    ensures e.Promote? && k.promoted.Some? ==> e.now <= k.promoted.value
  {
  }

  lemma PunctualWorkerStep(s: System, e: Event, k: Clocks)
    requires WellShaped(s) && Recorded(s) && Punctual(s, k) && Enabled(s, e) && ByWorker(e) && OnClock(s, e, k)
    ensures Punctual(Apply(s, e), k)
  {
    hide *;
    UnfoldWorker(s, e);
    ClockIs(s, e, k);
    match e
    case Fetch(p, node, name, t, now) =>
      LeastIsMember(Get(s.redis, name).ready, t);
      PunctualFetch(s, p, node, name, t, now, k);
    case Extend(p) => PunctualExtend(s, p, k);
    case ExtendFails(p, applied) => PunctualExtend(s, p, k); PunctualExit(s, p, k); PunctualExit(DoExtend(s, p), p, k);
    case Screen(p, readable) => PunctualScreen(s, p, readable, k);
    case Track(p) => PunctualTrack(s, p, k);
    case Recheck(p, readable) => PunctualScreen(s, p, readable, k);
    case Start(p, fault) => PunctualStart(s, p, fault, k);
    case NoHandler(p) => PunctualFail(s, p, k);
    case Return(p, ok, shutdown, readable) => PunctualReturn(s, p, ok, shutdown, readable, k);
    case Settle(p, fault) => PunctualSettle(s, p, fault, k);
    case Ack(p, lost) => PunctualAck(s, p, lost, k);
    case Nack(p, clock, jitter, lost) => PunctualNackOrNot(s, p, RetryAt(s.attempts[p].task, clock, jitter), lost, k);
  }

  lemma PunctualStep(s: System, e: Event, k: Clocks)
    requires WellShaped(s) && Recorded(s) && Punctual(s, k) && Enabled(s, e) && OnClock(s, e, k)
    ensures Punctual(Apply(s, e), k)
  {
    hide *;
    if ByWorker(e) {
      PunctualWorkerStep(s, e, k);
      return;
    }
    UnfoldOther(s, e);
    ClockIs(s, e, k);
    match e
    case Create(t, now) => PunctualCreate(s, t, now, k);
    case Enqueue(t) => PunctualEnqueue(s, t, k);
    case EnqueueDelayed(t, at) => PunctualDelayed(s, t, at, k);
    case Compensate(t) => PunctualCompensate(s, t, k);
    case Scan(t, now, olderThan) => PunctualScan(s, t, now, olderThan, k);
    case Touch(id, now) => PunctualTouch(s, id, now, k);
    case Promote(name, now, batch, ts) => PromoteFits(s, name, now, batch, ts); PunctualPromote(s, name, now, ts, k);
    case Reclaim(name, now, batch, ids) => PunctualReclaim(s, name, ids, k);
    case Crash(node) => PunctualCrash(s, node, k);
    case Deliver(node, id) => PunctualDeliver(s, node, id, k);
    case CancelRead(c, id) => PunctualOther(s, c, id, false, {}, k);
    case CancelWrite(c, fault) => PunctualCancelWrite(s, c, fault, k);
    case CancelRemove(c, lost) => PunctualCancelRemove(s, c, lost, k);
    case CancelPublish(c, lost) => PunctualOther(s, c, "", lost, {}, k);
    case Cleanup(gone) => PunctualOther(s, 0, "", false, gone, k);
  }

  // ----- runs -----

  lemma InitPunctual(k: Clocks)
    ensures Punctual(Init, k)
  {
  }

  ghost predicate Bounds(k: Clocks, allowed: (System, Event) -> bool) {
    forall s, e | allowed(s, e) :: OnClock(s, e, k)
  }

  lemma {:induction false} AlwaysPunctual(allowed: (System, Event) -> bool, es: seq<Event>, k: Clocks)
    requires Exec(allowed, es).Some? && Bounds(k, allowed)
    ensures Punctual(Exec(allowed, es).value, k)
  {
    hide Enabled, Apply, Punctual, Init, OnClock;
    if es == [] {
      InitPunctual(k);
    } else {
      var before := es[..|es| - 1];
      AlwaysPunctual(allowed, before, k);
      Always(allowed, before);
      AlwaysRecorded(allowed, before);
      PunctualStep(Exec(allowed, before).value, es[|es| - 1], k);
    }
  }

  /** What is in ready may be there. */
  lemma FetchIsPlaced(s: System, e: Event, k: Clocks)
    requires Punctual(s, k) && e.Fetch? && Enabled(s, e)
    ensures Placed(s.history.times, e.t) && TimesKept(s.history.times) && ClocksKept(s, k)
  {
    hide QueuedOnce, NacksFresh, DelayedWaits, AttemptsPlaced, ClocksKept, TimesKept, Placed;
    LeastIsMember(Get(s.redis, e.name).ready, e.t);
    assert e.t in Active(Get(s.redis, e.name));
  }

  /** In every run: a copy that was given an execution time is dequeued only after a promote call moved it,
      at a clock not before that time, or it is a first version that compensation enqueued. */
  lemma DequeuedAfterDue(es: seq<Event>, e: Event)
    requires Exec(Anything, es).Some? && e.Fetch? && Enabled(Exec(Anything, es).value, e)
    ensures
      var m := Exec(Anything, es).value.history.times;
      Key(e.t) in m.due ==>
        || (e.t in m.promotedAt && m.promotedAt[e.t] >= m.due[Key(e.t)])
        || (e.t in m.compensated && e.t.version == 1)
  {
    hide Exec, Enabled, Punctual;
    AlwaysPunctual(Anything, es, Clocks(None, None));
    FetchIsPlaced(Exec(Anything, es).value, e, Clocks(None, None));
  }

  /** Runs whose promote clocks are not after `now`. */
  function PromotesBy(now: int): (System, Event) -> bool {
    (s: System, e: Event) => e.Promote? ==> e.now <= now
  }

  /** A retry is never dequeued before its backoff is over, compensated or not. */
  lemma RetryNeverEarly(es: seq<Event>, e: Event)
    requires e.Fetch? && Exec(PromotesBy(e.now), es).Some?
    requires Enabled(Exec(PromotesBy(e.now), es).value, e) && e.t.version >= 2
    ensures
      var m := Exec(PromotesBy(e.now), es).value.history.times;
      Key(e.t) in m.due ==> m.due[Key(e.t)] <= e.now
  {
    hide Exec, Enabled, Punctual;
    var k := Clocks(Some(e.now), None);
    AlwaysPunctual(PromotesBy(e.now), es, k);
    FetchIsPlaced(Exec(PromotesBy(e.now), es).value, e, k);
  }

  // ----- the exact condition for submissions -----

  /** Runs up to clock `now`: promote calls and compensation scans are not ahead of it, the scans use the
      age limit `olderThan`, and no touch sets updated_at back. */
  function Timely(olderThan: int, now: int): (System, Event) -> bool {
    (s: System, e: Event) =>
      && (e.Promote? ==> e.now <= now)
      && (e.Scan? ==> e.olderThan == olderThan && e.now <= now)
      && Forward(s, e)
  }

  /** `e` dequeues a submission created at clock c with the execution time `at`. */
  ghost predicate DequeuesDelayed(es: seq<Event>, e: Event, c: int, at: int, olderThan: int) {
    && e.Fetch? && Exec(Timely(olderThan, e.now), es).Some? && Enabled(Exec(Timely(olderThan, e.now), es).value, e)
    && var m := Exec(Timely(olderThan, e.now), es).value.history.times;
       && e.t.version == 1 && Key(e.t) in m.due && m.due[Key(e.t)] == at
       && e.t.id in m.createdAt && m.createdAt[e.t.id] == c
  }

  ghost predicate NeverBefore(c: int, at: int, olderThan: int) {
    forall es, e | DequeuesDelayed(es, e, c, at, olderThan) :: at <= e.now
  }

  lemma OnTimeIfSoon(es: seq<Event>, e: Event, c: int, at: int, olderThan: int)
    requires DequeuesDelayed(es, e, c, at, olderThan) && at <= c + olderThan + 1
    ensures at <= e.now
  {
    hide Exec, Enabled, Punctual;
    var k := Clocks(Some(e.now), Some((olderThan, e.now)));
    AlwaysPunctual(Timely(olderThan, e.now), es, k);
    FetchIsPlaced(Exec(Timely(olderThan, e.now), es).value, e, k);
  }

  /** A task created at clock c and delayed. */
  lemma CreatedAndDelayed(t: Task, c: int, at: int, allowed: (System, Event) -> bool)
    returns (es: seq<Event>, s: System)
    requires t.state == Pending && t.retryCount == 0 && t.version == 1
    requires forall s: System, e: Event | e.Create? || e.EnqueueDelayed? :: allowed(s, e)
    ensures
      var m := s.history.times;
      && Exec(allowed, es) == Some(s) && s.rows == map[t.id := t] && s.touched == map[t.id := c] && s.attempts == map[]
      && m.due == map[Key(t) := at] && m.createdAt == map[t.id := c]
      && Get(s.redis, t.queue).ready == map[] && Get(s.redis, t.queue).inflight == map[]
  {
    assert Exec(allowed, []) == Some(Init);
    hide Exec;
    s := Then(allowed, [], Init, Create(t, c));
    es := [] + [Create(t, c)];
    s := Then(allowed, es, s, EnqueueDelayed(t, at));
    es := es + [EnqueueDelayed(t, at)];
  }

  lemma CompensatedNow(t: Task, es: seq<Event>, s: System, allowed: (System, Event) -> bool) returns (r: System)
    requires Exec(allowed, es) == Some(s) && t in s.snapshots && s.attempts == map[] && allowed(s, Compensate(t))
    requires Get(s.redis, t.queue).ready == map[] && Get(s.redis, t.queue).inflight == map[]
    ensures Exec(allowed, es + [Compensate(t)]) == Some(r)
    ensures r.attempts == map[] && IsLeast(Get(r.redis, t.queue).ready, t)
    ensures r.history.times.due == s.history.times.due && r.history.times.createdAt == s.history.times.createdAt
  {
    hide Exec;
    r := Then(allowed, es, s, Compensate(t));
    assert Get(r.redis, t.queue).ready == map[t := ReadyScore(t)];
  }

  /** If the execution time is later than that clock, compensation can have the task dequeued before it. */
  lemma CompensationIsEarly(t: Task, c: int, at: int, olderThan: int) returns (es: seq<Event>, e: Event)
    requires t.state == Pending && t.retryCount == 0 && t.version == 1 && at > c + olderThan + 1
    ensures DequeuesDelayed(es, e, c, at, olderThan) && e.t == t && e.now < at
  {
    hide Exec;
    var now := c + olderThan + 1;
    var allowed, s := Timely(olderThan, now), Init;
    es, s := CreatedAndDelayed(t, c, at, allowed);
    s := Then(allowed, es, s, Scan(t, now, olderThan));
    es := es + [Scan(t, now, olderThan)];
    var r := CompensatedNow(t, es, s, allowed);
    es := es + [Compensate(t)];
    e := Fetch(0, "n", t.queue, t, now);
  }

  /** Submissions created at clock c with execution time `at` are never dequeued early, in any run, if and
      only if `at` is not after the first clock at which the compensation loop can select their row. */
  lemma NeverEarlyIff(c: int, at: int, olderThan: int)
    ensures NeverBefore(c, at, olderThan) <==> at <= c + olderThan + 1
  {
    hide Exec, Enabled;
    if at <= c + olderThan + 1 {
      forall es, e | DequeuesDelayed(es, e, c, at, olderThan) ensures at <= e.now {
        OnTimeIfSoon(es, e, c, at, olderThan);
      }
    } else {
      var es, e := CompensationIsEarly(NoTask.(version := 1), c, at, olderThan);
    }
  }
}
