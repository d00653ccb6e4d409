/** What the version check protects. A version of a row is committed once, so it determines the state;
    hence an Update that commits onto a terminal row belongs to a worker whose previous Update of the
    same copy had failed. Such a run exists: a cancel that commits between the second state check and
    the Running write is overwritten by the handler's outcome. */
module OptimisticLock {
  import opened Entities
  import opened SortedSets
  import opened Queues
  import opened Timing
  import opened TaskTable
  import opened Protocol
  import opened Shape
  import opened Frames

  /** The state committed with the copy's version is known and not terminal. */
  predicate Live(content: map<(string, int), TaskState>, t: Task) {
    (t.id, t.version) in content && !Terminal(content[(t.id, t.version)])
  }

  predicate Grows(a: map<(string, int), TaskState>, b: map<(string, int), TaskState>) {
    forall k | k in a :: k in b && b[k] == a[k]
  }

  ghost predicate RowsRecorded(s: System) {
    && (forall k | k in s.history.content ::
          k.0 in s.history.created && (k.0 in s.rows ==> k.1 <= s.rows[k.0].version))
    && (forall id | id in s.rows ::
          (id, s.rows[id].version) in s.history.content
          && s.history.content[(id, s.rows[id].version)] == s.rows[id].state)
  }

  ghost predicate CopiesLive(s: System) {
    forall name, t | t in Copies(Get(s.redis, name)) :: Live(s.history.content, t)
  }

  ghost predicate PoolsLive(s: System) {
    && (forall t | t in s.submitting :: Live(s.history.content, t))
    && (forall t | t in s.snapshots :: Live(s.history.content, t))
  }

  predicate Unwritten(phase: Phase) {
    phase == Fetched || phase == Loaded || phase == Screened || phase == Tracked || phase == Cleared
  }

  predicate AttemptLive(content: map<(string, int), TaskState>, a: Attempt) {
    && (Unwritten(a.phase) ==> a.clean)
    && (a.clean && (Unwritten(a.phase) || a.phase == Handling || a.phase == Settling) ==> Live(content, a.task))
    && (a.phase == Nacking ==> Live(content, a.task))
  }

  ghost predicate AttemptsLive(s: System) {
    forall p | p in s.attempts :: AttemptLive(s.history.content, s.attempts[p])
  }

  ghost predicate CancellersLive(s: System) {
    forall c | c in s.cancellers :: s.cancellers[c].phase == Writing ==> Live(s.history.content, s.cancellers[c].task)
  }

  ghost predicate Recorded(s: System) {
    RowsRecorded(s) && CopiesLive(s) && PoolsLive(s) && AttemptsLive(s) && CancellersLive(s)
  }

  // ----- parts of a step -----

  lemma StillLive(a: map<(string, int), TaskState>, b: map<(string, int), TaskState>, t: Task)
    requires Grows(a, b)
    ensures Live(a, t) ==> Live(b, t)
  {
  }

  /** A commit adds the next version of the row and disturbs no earlier one. */
  lemma WriteRecords(s: System, t: Task, fault: Fault)
    requires RowsRecorded(s) && t.version >= 1 && t.state != Pending
    ensures RowsRecorded(Write(s, t, fault))
    ensures Grows(s.history.content, Write(s, t, fault).history.content)
    ensures Commits(s.rows, t, fault) ==>
              (t.id, t.version + 1) in Write(s, t, fault).history.content
              && Write(s, t, fault).history.content[(t.id, t.version + 1)] == t.state
  {
    if Commits(s.rows, t, fault) {
      CommitRecords(s, Write(s, t, fault), t);
    }
  }

  lemma CommitRecords(s: System, r: System, t: Task)
    requires RowsRecorded(s) && t.version >= 1 && t.state != Pending && LockHolds(s.rows, t)
    requires r.rows == Committed(s.rows, t) && r.history.created == s.history.created
    requires r.history.content == s.history.content[(t.id, t.version + 1) := t.state]
    ensures RowsRecorded(r) && Grows(s.history.content, r.history.content)
  {
    hide Merged;
    MergedIs(s.rows[t.id], t);
    assert (t.id, t.version + 1) !in s.history.content;
  }

  lemma MergedIs(row: Task, t: Task)
    requires t.version >= 1 && t.state != Pending
    ensures Merged(row, Bumped(t)).version == t.version + 1 && Merged(row, Bumped(t)).state == t.state
    ensures Merged(row, Bumped(t)).id == row.id
  {
  }

  lemma CopiesStayLive(s: System, r: System, incoming: set<Task>)
    requires CopiesLive(s) && Grows(s.history.content, r.history.content)
    requires ComesFrom(s, r, incoming) && forall t | t in incoming :: Live(r.history.content, t)
    ensures CopiesLive(r)
  {
    hide Copies, Live, Grows, Get;
    forall name, t | t in Copies(Get(r.redis, name)) ensures Live(r.history.content, t) {
      if t in Copies(Get(s.redis, name)) {
        StillLive(s.history.content, r.history.content, t);
      }
    }
  }

  lemma PoolsStayLive(s: System, r: System)
    requires PoolsLive(s) && Grows(s.history.content, r.history.content)
    requires r.submitting <= s.submitting && r.snapshots <= s.snapshots
    ensures PoolsLive(r)
  {
  }

  lemma AttemptsStayLive(s: System, r: System, p: nat, a: Attempt)
    requires AttemptsLive(s) && Grows(s.history.content, r.history.content)
    requires (r.attempts == s.attempts[p := a] && AttemptLive(r.history.content, a)) || r.attempts == s.attempts - {p}
             || r.attempts == s.attempts
    ensures AttemptsLive(r)
  {
  }

  lemma CancellersStayLive(s: System, r: System, c: nat, x: Canceller)
    requires CancellersLive(s) && Grows(s.history.content, r.history.content)
    requires (r.cancellers == s.cancellers[c := x] && (x.phase == Writing ==> Live(r.history.content, x.task)))
             || r.cancellers == s.cancellers - {c} || r.cancellers == s.cancellers
    ensures CancellersLive(r)
  {
  }

  /** A step of attempt p: afterwards it is `a`, or gone, or as before. */
  lemma RecordedMove(s: System, r: System, p: nat, a: Attempt, incoming: set<Task>)
    requires Recorded(s) && RowsRecorded(r) && Grows(s.history.content, r.history.content)
    requires ComesFrom(s, r, incoming) && forall t | t in incoming :: Live(r.history.content, t)
    requires r.submitting <= s.submitting && r.snapshots == s.snapshots && r.cancellers == s.cancellers
    requires (r.attempts == s.attempts[p := a] && AttemptLive(r.history.content, a)) || r.attempts == s.attempts - {p}
             || r.attempts == s.attempts
    ensures Recorded(r)
  {
    hide RowsRecorded, CopiesLive, PoolsLive, AttemptsLive, CancellersLive, AttemptLive, Live, Grows, ComesFrom;
    CopiesStayLive(s, r, incoming);
    PoolsStayLive(s, r);
    AttemptsStayLive(s, r, p, a);
    CancellersStayLive(s, r, 0, Canceller(a.task, Publishing));
  }

  /** The same when rows and committed states stay as they are. */
  lemma RecordedQuiet(s: System, r: System, p: nat, a: Attempt, incoming: set<Task>)
    requires Recorded(s) && r.rows == s.rows && r.history.content == s.history.content
    requires r.history.created == s.history.created
    requires ComesFrom(s, r, incoming) && forall t | t in incoming :: Live(s.history.content, t)
    requires r.submitting <= s.submitting && r.snapshots == s.snapshots && r.cancellers == s.cancellers
    requires (r.attempts == s.attempts[p := a] && AttemptLive(s.history.content, a)) || r.attempts == s.attempts - {p}
             || r.attempts == s.attempts
    ensures Recorded(r)
  {
  }

  /** A step of a canceller. */
  lemma RecordedCancel(s: System, r: System, c: nat, x: Canceller)
    requires Recorded(s) && RowsRecorded(r) && Grows(s.history.content, r.history.content) && ComesFrom(s, r, {})
    requires r.submitting == s.submitting && r.snapshots == s.snapshots && r.attempts == s.attempts
    requires (r.cancellers == s.cancellers[c := x] && (x.phase == Writing ==> Live(r.history.content, x.task)))
             || r.cancellers == s.cancellers - {c}
    ensures Recorded(r)
  {
    hide RowsRecorded, CopiesLive, PoolsLive, AttemptsLive, CancellersLive, AttemptLive, Live, Grows, ComesFrom;
    CopiesStayLive(s, r, {});
    PoolsStayLive(s, r);
    AttemptsStayLive(s, r, 0, NoAttempt);
    CancellersStayLive(s, r, c, x);
  }

  lemma RowsAre(s: System)
    requires Recorded(s)
    ensures RowsRecorded(s)
  {
    hide RowsRecorded;
  }

  lemma RowsOnly(s: System, r: System)
    requires Recorded(s) || RowsRecorded(s)
    requires r.rows == s.rows && r.history.content == s.history.content && r.history.created == s.history.created
    ensures RowsRecorded(r)
  {
    hide CopiesLive, PoolsLive, AttemptsLive, CancellersLive;
  }

  lemma GrowsSelf(s: System)
    ensures Grows(s.history.content, s.history.content)
  {
  }

  lemma AttemptIsLive(s: System, p: nat)
    requires Recorded(s) && p in s.attempts
    ensures AttemptLive(s.history.content, s.attempts[p])
  {
    hide RowsRecorded, CopiesLive, PoolsLive, CancellersLive, AttemptLive;
  }

  lemma CreateGrows(s: System, t: Task, now: int)
    requires RowsRecorded(s) && t.id !in s.history.created
    ensures RowsRecorded(DoCreate(s, t, now)) && Grows(s.history.content, DoCreate(s, t, now).history.content)
  {
  }

  lemma RecordedCreate(s: System, t: Task, now: int)
    requires WellShaped(s) && Recorded(s) && t.id !in s.history.created && t.state == Pending
    ensures Recorded(DoCreate(s, t, now))
  {
    hide WellShaped, RowsRecorded, CopiesLive, AttemptsLive, CancellersLive, Grows, ComesFrom;
    var r := DoCreate(s, t, now);
    CreateGrows(s, t, now);
    SameRedis(s, r, {});
    CopiesStayLive(s, r, {});
    PoolsStayLive(s, r.(submitting := s.submitting));
    AttemptsStayLive(s, r, 0, NoAttempt);
    CancellersStayLive(s, r, 0, Canceller(t, Publishing));
    assert Live(r.history.content, t);
  }

  lemma RecordedSubmit(s: System, t: Task, at: int)
    requires Recorded(s)
    ensures t in s.submitting ==> Recorded(DoEnqueue(s, t)) && Recorded(DoEnqueueDelayed(s, t, at))
    ensures t in s.snapshots ==> Recorded(DoCompensate(s, t))
  {
    hide RowsRecorded, CopiesLive, AttemptsLive, CancellersLive, Live, Enqueued, Queues.Delayed, Compensated, ComesFrom,
         AttemptLive;
    SubmitSources(s, t, at);
    if t in s.submitting {
      RecordedQuiet(s, DoEnqueue(s, t), 0, NoAttempt, {t});
      RecordedQuiet(s, DoEnqueueDelayed(s, t, at), 0, NoAttempt, {t});
    }
    if t in s.snapshots {
      RecordedQuiet(s, DoCompensate(s, t), 0, NoAttempt, {t});
    }
  }

  lemma ReadyIsLive(s: System, name: string, t: Task)
    requires Recorded(s) && t in Get(s.redis, name).ready
    ensures Live(s.history.content, t)
  {
  }

  lemma RecordedFetch(s: System, p: nat, node: string, name: string, t: Task, now: int)
    requires Recorded(s) && p !in s.attempts && IsLeast(Get(s.redis, name).ready, t)
    ensures Recorded(DoFetch(s, p, node, name, t, now))
  {
    hide Recorded, Live, ComesFrom, Dequeued;
    LeastIsMember(Get(s.redis, name).ready, t);
    ReadyIsLive(s, name, t);
    FetchSources(s, p, node, name, t, now);
    RecordedQuiet(s, DoFetch(s, p, node, name, t, now), p, Attempt(node, t, t, Fetched, true, false, false, now), {t});
  }

  lemma RecordedExtend(s: System, p: nat)
    requires Recorded(s) && p in s.attempts && s.attempts[p].phase == Fetched
    ensures Recorded(DoExtend(s, p)) && Recorded(Exit(DoExtend(s, p), p)) && Recorded(Exit(s, p))
  {
    hide Recorded, Live, ComesFrom, Leased, LongLease, VisibilityMs, Exit, Get;
    AttemptIsLive(s, p);
    ExtendSources(s, p);
    RecordedQuiet(s, DoExtend(s, p), p, s.attempts[p].(phase := Loaded), {});
    RecordedExit(DoExtend(s, p), p);
    RecordedExit(s, p);
  }

  // An attempt steps on before its first write.

  lemma RecordedScreen(s: System, p: nat, readable: bool)
    requires Recorded(s) && p in s.attempts && s.attempts[p].phase == Loaded
    ensures Recorded(DoScreen(s, p, readable))
  {
    hide Recorded, Live, ComesFrom, SeesTerminal;
    AttemptIsLive(s, p);
    SameRedis(s, DoScreen(s, p, readable), {});
    RecordedQuiet(s, DoScreen(s, p, readable), p, DoScreen(s, p, readable).attempts[p], {});
  }

  lemma RecordedTrack(s: System, p: nat)
    requires Recorded(s) && p in s.attempts && s.attempts[p].phase == Screened
    ensures Recorded(DoTrack(s, p))
  {
    hide Recorded, Live, ComesFrom, Rivals;
    AttemptIsLive(s, p);
    SameRedis(s, DoTrack(s, p), {});
    RecordedQuiet(s, DoTrack(s, p), p, s.attempts[p].(phase := Tracked, tracked := true), {});
  }

  lemma RecordedRecheck(s: System, p: nat, readable: bool)
    requires Recorded(s) && p in s.attempts && s.attempts[p].phase == Tracked
    ensures Recorded(DoRecheck(s, p, readable))
  {
    hide Recorded, Live, ComesFrom, SeesTerminal;
    AttemptIsLive(s, p);
    SameRedis(s, DoRecheck(s, p, readable), {});
    RecordedQuiet(s, DoRecheck(s, p, readable), p, DoRecheck(s, p, readable).attempts[p], {});
  }

  lemma RecordedStart(s: System, p: nat, fault: Fault)
    requires WellShaped(s) && Recorded(s) && p in s.attempts && s.attempts[p].phase == Cleared
    ensures Recorded(DoStart(s, p, fault))
  {
    hide Recorded, Live, ComesFrom, WellShaped, RowsRecorded, Commits, Good, Committed, Same, Grows;
    AttemptIs(s, p);
    RowsAre(s);
    var t := s.attempts[p].task.(state := Running);
    WriteRecords(s, t, fault);
    var r := DoStart(s, p, fault);
    SameRedis(s, r, {});
    RowsOnly(Write(s, t, fault), r);
    StartedLive(s, p, fault);
    RecordedMove(s, r, p, r.attempts[p], {});
  }

  /** A Running write that reported success left exactly the version the worker now holds. */
  lemma StartedLive(s: System, p: nat, fault: Fault)
    requires p in s.attempts
    requires Commits(s.rows, s.attempts[p].task.(state := Running), fault) ==>
               var t := s.attempts[p].task;
               var content := Write(s, t.(state := Running), fault).history.content;
               (t.id, t.version + 1) in content && content[(t.id, t.version + 1)] == Running
    ensures AttemptLive(DoStart(s, p, fault).history.content, DoStart(s, p, fault).attempts[p])
  {
    hide Committed, LockHolds;
  }

  lemma RecordedFail(s: System, p: nat)
    requires Recorded(s) && p in s.attempts && (s.attempts[p].phase == Cleared || s.attempts[p].phase == Handling)
    ensures Recorded(DoFail(s, p)) && Recorded(MoveTo(s, p, Acking))
    ensures Recorded(Decide(s, p, s.attempts[p].task.(state := Completed)))
  {
    hide Recorded, ComesFrom;
    AttemptIsLive(s, p);
    var a := s.attempts[p];
    SameRedis(s, DoFail(s, p), {});
    SameRedis(s, MoveTo(s, p, Acking), {});
    SameRedis(s, Decide(s, p, a.task.(state := Completed)), {});
    RecordedQuiet(s, DoFail(s, p), p, a.(task := FailedOnce(a.task), phase := Settling), {});
    RecordedQuiet(s, MoveTo(s, p, Acking), p, a.(phase := Acking), {});
    RecordedQuiet(s, Decide(s, p, a.task.(state := Completed)), p, a.(task := a.task.(state := Completed),
        phase := Settling), {});
  }

  lemma RecordedReturn(s: System, p: nat, ok: bool, shutdown: bool, readable: bool)
    requires Recorded(s) && p in s.attempts && s.attempts[p].phase == Handling
    ensures Recorded(DoReturn(s, p, ok, shutdown, readable))
  {
    hide Recorded, DoFail, MoveTo, Decide;
    RecordedFail(s, p);
  }

  lemma RecordedSettle(s: System, p: nat, fault: Fault)
    requires WellShaped(s) && Recorded(s) && p in s.attempts && s.attempts[p].phase == Settling
    ensures Recorded(DoSettle(s, p, fault))
  {
    hide Recorded, ComesFrom, WellShaped, RowsRecorded, Good, Same, LockHolds, Grows, Write, Live, Succeeds, Commits,
         Exit;
    AttemptIs(s, p);
    RowsAre(s);
    var a := s.attempts[p];
    var t := a.task;
    WriteRecords(s, t, fault);
    WriteFrame(s, t, fault);
    var w := Write(s, t, fault);
    SameRedis(s, w, {});
    RecordedMove(s, w, p, NoAttempt, {});
    RecordedExit(w, p);
    SettledLive(s, w, t, fault);
    var b := a.(task := Bumped(t), phase := if t.state == Retrying then Nacking else Acking);
    var r := w.(attempts := s.attempts[p := b]);
    SameRedis(w, r, {});
    if t.state == Retrying ==> Succeeds(s.rows, t, fault) {
      RecordedQuiet(w, r, p, b, {});
    }
  }

  /** A retry write that reported success left exactly the version Nack will queue. */
  lemma SettledLive(s: System, w: System, t: Task, fault: Fault)
    requires Commits(s.rows, t, fault) ==>
               (t.id, t.version + 1) in w.history.content && w.history.content[(t.id, t.version + 1)] == t.state
    ensures Succeeds(s.rows, t, fault) && t.state == Retrying ==> Live(w.history.content, Bumped(t))
  {
    hide LockHolds;
  }

  lemma RecordedExit(s: System, p: nat)
    requires Recorded(s) && p in s.attempts
    ensures Recorded(Exit(s, p))
  {
  }

  lemma RecordedAck(s: System, p: nat, lost: bool)
    requires Recorded(s) && p in s.attempts
    ensures Recorded(DoAck(s, p, lost))
  {
    hide Recorded, ComesFrom, Acked, Live, AttemptLive, Rivals, Get;
    EndSources(s, p, 0, lost);
    RecordedQuiet(s, DoAck(s, p, lost), p, NoAttempt, {});
  }

  lemma RecordedNack(s: System, p: nat, at: int, lost: bool)
    requires Recorded(s) && p in s.attempts && s.attempts[p].phase == Nacking
    ensures Recorded(DoNack(s, p, at, lost))
  {
    hide Recorded, ComesFrom, Nacked, Live, Exit, Copies;
    AttemptIsLive(s, p);
    var t := s.attempts[p].task;
    var q := Get(s.redis, t.queue);
    CopiesNacked(q, t, at);
    var put := OnQueue(s, t.queue, Nacked(q, t, at));
    PutRedis(s, put, t.queue, Nacked(q, t, at), {t});
    RecordedQuiet(s, put, 0, NoAttempt, {t});
    RecordedSame(put, Issue(put, t));
    RecordedSame(put, Schedule(Issue(put, t), t, at));
    RecordedExit(s, p);
    RecordedExit(Issue(put, t), p);
    RecordedExit(Schedule(Issue(put, t), t, at), p);
  }

  lemma RecordedCrash(s: System, node: string)
    requires Recorded(s)
    ensures Recorded(DoCrash(s, node))
  {
  }

  lemma RecordedDeliver(s: System, node: string, id: string)
    requires Recorded(s)
    ensures Recorded(DoDeliver(s, node, id))
  {
    hide Recorded, ComesFrom, AttemptLive, DoDeliver;
    var r := DoDeliver(s, node, id);
    var p, b := DeliverMoves(s, node, id);
    SameRedis(s, r, {});
    if p in s.attempts {
      AttemptIsLive(s, p);
      FlagOnly(s.history.content, s.attempts[p]);
    }
    RecordedQuiet(s, r, p, b, {});
  }

  lemma FlagOnly(content: map<(string, int), TaskState>, a: Attempt)
    requires AttemptLive(content, a)
    ensures AttemptLive(content, a.(cancelled := true))
  {
    hide Live;
  }

  lemma RecordedSame(s: System, r: System)
    requires Recorded(s) && r == s.(history := r.history)
    requires r.history.content == s.history.content && r.history.created == s.history.created
    ensures Recorded(r)
  {
    hide Live, AttemptLive, Copies, Get;
  }

  lemma RecordedCancelRead(s: System, c: nat, id: string)
    requires WellShaped(s) && Recorded(s) && id in s.rows && !s.rows[id].IsTerminal()
    ensures Recorded(DoCancelRead(s, c, id))
  {
  }

  lemma RecordedCancelWrite(s: System, c: nat, fault: Fault)
    requires WellShaped(s) && Recorded(s) && c in s.cancellers
    ensures Recorded(DoCancelWrite(s, c, fault))
  {
    hide Recorded, ComesFrom, WellShaped, RowsRecorded, Live, Committed, Commits, Succeeds, Grows, Write;
    CancellerIs(s, c);
    RowsAre(s);
    var t := s.cancellers[c].task;
    WriteRecords(s, t, fault);
    WriteFrame(s, t, fault);
    var r := DoCancelWrite(s, c, fault);
    SameRedis(s, r, {});
    RowsOnly(Write(s, t, fault), r);
    RecordedCancel(s, r, c, Canceller(Bumped(t), Removing));
  }

  lemma RecordedCancelEnd(s: System, c: nat, lost: bool)
    requires Recorded(s) && c in s.cancellers
    ensures Recorded(DoCancelRemove(s, c, lost)) && Recorded(DoCancelPublish(s, c, lost))
  {
    hide Recorded, ComesFrom, RowsRecorded, Live, Removed, Grows;
    RemoveSources(s, c, lost);
    SameRedis(s, DoCancelPublish(s, c, lost), {});
    RowsOnly(s, DoCancelRemove(s, c, lost));
    RowsOnly(s, DoCancelPublish(s, c, lost));
    GrowsSelf(s);
    RecordedCancel(s, DoCancelRemove(s, c, lost), c, Canceller(s.cancellers[c].task, Publishing));
    RecordedCancel(s, DoCancelPublish(s, c, lost), c, s.cancellers[c]);
  }

  lemma RecordedBatch(s: System, name: string, now: int, batch: int, ts: seq<Task>, ids: seq<string>)
    requires Recorded(s)
    ensures IsRange(Get(s.redis, name).delayed, now, batch, ts) ==> Recorded(DoPromote(s, name, now, ts))
    ensures Recorded(OnQueue(s, name, Reclaimed(Get(s.redis, name), Elements(ids))))
  {
    hide Recorded, ComesFrom, Promoted, Reclaimed, IsRange, Live, AttemptLive;
    BatchSources(s, name, now, batch, ts, ids);
    if IsRange(Get(s.redis, name).delayed, now, batch, ts) {
      RecordedQuiet(s, DoPromote(s, name, now, ts), 0, NoAttempt, {});
    }
    RecordedQuiet(s, OnQueue(s, name, Reclaimed(Get(s.redis, name), Elements(ids))), 0, NoAttempt, {});
  }

  lemma RecordedScan(s: System, t: Task, now: int, olderThan: int)
    requires WellShaped(s) && Recorded(s) && Stale(s, t, now, olderThan)
    ensures Recorded(DoScan(s, t, now))
  {
    hide CopiesLive, AttemptsLive, CancellersLive, WellShaped, ComesFrom, Grows, Get;
    var r := DoScan(s, t, now);
    RowIs(s, t.id);
    SameRedis(s, r, {});
    GrowsSelf(s);
    CopiesStayLive(s, r, {});
    AttemptsStayLive(s, r, 0, NoAttempt);
    CancellersStayLive(s, r, 0, Canceller(t, Publishing));
  }

  lemma RecordedTouch(s: System, id: string, now: int)
    requires Recorded(s)
    ensures Recorded(DoTouch(s, id, now))
  {
    hide Recorded, ComesFrom, Live, AttemptLive;
    SameRedis(s, DoTouch(s, id, now), {});
    RecordedQuiet(s, DoTouch(s, id, now), 0, NoAttempt, {});
  }

  lemma RecordedCleanup(s: System, gone: set<string>)
    requires Recorded(s)
    ensures Recorded(DoCleanup(s, gone))
  {
  }

  lemma RecordedWorkerStep(s: System, e: Event)
    requires WellShaped(s) && Recorded(s) && Enabled(s, e) && ByWorker(e)
    ensures Recorded(Apply(s, e))
  {
    hide *;
    UnfoldWorker(s, e);
    match e
    case Fetch(p, node, name, t, now) => RecordedFetch(s, p, node, name, t, now);
    case Extend(p) => RecordedExtend(s, p);
    case ExtendFails(p, applied) => RecordedExtend(s, p);
    case Screen(p, readable) => RecordedScreen(s, p, readable);
    case Track(p) => RecordedTrack(s, p);
    case Recheck(p, readable) => RecordedRecheck(s, p, readable);
    case Start(p, fault) => RecordedStart(s, p, fault);
    case NoHandler(p) => RecordedFail(s, p);
    case Return(p, ok, shutdown, readable) => RecordedReturn(s, p, ok, shutdown, readable);
    case Settle(p, fault) => RecordedSettle(s, p, fault);
    case Ack(p, lost) => RecordedAck(s, p, lost);
    case Nack(p, clock, jitter, lost) => RecordedNack(s, p, RetryAt(s.attempts[p].task, clock, jitter), lost);
  }

  lemma RecordedStep(s: System, e: Event)
    requires WellShaped(s) && Recorded(s) && Enabled(s, e)
    ensures Recorded(Apply(s, e))
  {
    hide *;
    if ByWorker(e) {
      RecordedWorkerStep(s, e);
      return;
    }
    UnfoldOther(s, e);
    match e
    case Create(t, now) => RecordedCreate(s, t, now);
    case Enqueue(t) => RecordedSubmit(s, t, 0);
    case EnqueueDelayed(t, at) => RecordedSubmit(s, t, at);
    case Compensate(t) => RecordedSubmit(s, t, 0);
    case Crash(node) => RecordedCrash(s, node);
    case Deliver(node, id) => RecordedDeliver(s, node, id);
    case CancelRead(c, id) => RecordedCancelRead(s, c, id);
    case CancelWrite(c, fault) => RecordedCancelWrite(s, c, fault);
    case CancelRemove(c, lost) => RecordedCancelEnd(s, c, lost);
    case CancelPublish(c, lost) => RecordedCancelEnd(s, c, lost);
    case Promote(name, now, batch, ts) => RecordedBatch(s, name, now, batch, ts, []);
    case Reclaim(name, now, batch, ids) => RecordedBatch(s, name, now, batch, [], ids);
    case Scan(t, now, olderThan) => RecordedScan(s, t, now, olderThan);
    case Touch(id, now) => RecordedTouch(s, id, now);
    case Cleanup(gone) => RecordedCleanup(s, gone);
  }

  lemma {:induction false} AlwaysRecorded(allowed: (System, Event) -> bool, es: seq<Event>)
    requires Exec(allowed, es).Some?
    ensures Recorded(Exec(allowed, es).value)
  {
    hide Enabled, Apply;
    if es != [] {
      var before := es[..|es| - 1];
      AlwaysRecorded(allowed, before);
      Always(allowed, before);
      RecordedStep(Exec(allowed, before).value, es[|es| - 1]);
    }
  }

  // ----- the theorem -----

  /** The Update call an event makes, if it makes one. */
  function Writer(s: System, e: Event): Option<(Task, Fault)> {
    match e
    case Start(p, fault) => if p in s.attempts then Some((s.attempts[p].task.(state := Running), fault)) else None
    case Settle(p, fault) => if p in s.attempts then Some((s.attempts[p].task, fault)) else None
    case CancelWrite(c, fault) => if c in s.cancellers then Some((s.cancellers[c].task, fault)) else None
    case _ => None
  }

  ghost predicate OverwritesTerminal(s: System, e: Event) {
    && Writer(s, e).Some?
    && var (t, fault) := Writer(s, e).value;
       Commits(s.rows, t, fault) && s.rows[t.id].IsTerminal()
  }

  /** A commit makes a version of the row that there has never been, and records its state. */
  lemma CommittedOnce(s: System, e: Event)
    requires Reachable(s) && Enabled(s, e) && Writer(s, e).Some?
    requires Commits(s.rows, Writer(s, e).value.0, Writer(s, e).value.1)
    ensures
      var t := Writer(s, e).value.0;
      && (t.id, t.version + 1) !in s.history.content
      && forall version | (t.id, version) in s.history.content :: version <= t.version
  {
    hide CopiesLive, PoolsLive, WellShaped, Exec, Apply, RowOk;
    var es :| Exec(Anything, es) == Some(s);
    AlwaysRecorded(Anything, es);
  }

  /** Cancellers and Running writes never overwrite a terminal row; a final write does only after the
      same attempt's Running write failed. */
  lemma OverwriteNeedsFailedWrite(s: System, e: Event)
    requires Reachable(s) && Enabled(s, e) && OverwritesTerminal(s, e)
    ensures e.Settle? && !s.attempts[e.p].clean
  {
    hide CopiesLive, PoolsLive, WellShaped, Exec, Apply, RowOk;
    var es :| Exec(Anything, es) == Some(s);
    AlwaysRecorded(Anything, es);
  }
}
