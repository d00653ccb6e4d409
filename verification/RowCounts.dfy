/** The row's retry count. In runs with a single delivery at a time it is the number of failures of the task,
    except while a worker is about to write the latest one. */
module RowCounts {
  import opened Entities
  import opened SortedSets
  import opened Queues
  import opened Timing
  import opened TaskTable
  import opened Protocol
  import opened Shape
  import opened Frames
  import opened CrashTolerance
  import opened RetryBound

  /** Attempt a is about to write a failure of the task. */
  predicate Failing(a: Attempt, id: string) {
    a.task.id == id && a.phase == Settling && a.task.state != Completed
  }

  ghost predicate FailingNow(s: System, id: string) {
    exists p :: p in s.attempts && Failing(s.attempts[p], id)
  }

  predicate CountUpTo(s: System, id: string)
    requires id in s.rows
  {
    0 <= s.rows[id].retryCount <= Failures(s, id)
  }

  ghost predicate RowsCharged(s: System) {
    forall id | id in s.rows ::
      CountUpTo(s, id) && (!FailingNow(s, id) ==> s.rows[id].retryCount == Failures(s, id))
  }

  // ----- steps that write no row -----

  lemma RowsQuiet(s: System, r: System)
    requires RowsCharged(s) && r.history.failures == s.history.failures
    requires forall id | id in r.rows :: id in s.rows && r.rows[id] == s.rows[id]
    requires forall p, id | p in s.attempts && Failing(s.attempts[p], id) ::
               p in r.attempts && Failing(r.attempts[p], id)
    ensures RowsCharged(r)
  {
    hide Failing;
    forall id | FailingNow(s, id) ensures FailingNow(r, id) {
      var p :| p in s.attempts && Failing(s.attempts[p], id);
      assert p in r.attempts && Failing(r.attempts[p], id);
    }
  }

  /** Attempt p, which is not about to write, moves or ends. */
  lemma RowsMove(s: System, r: System, p: nat, a: Attempt)
    requires RowsCharged(s) && r.history.failures == s.history.failures && r.rows == s.rows
    requires p in s.attempts ==> s.attempts[p].phase != Settling
    requires r.attempts == s.attempts[p := a] || r.attempts == s.attempts - {p} || r.attempts == s.attempts
    ensures RowsCharged(r)
  {
    hide RowsCharged;
    RowsQuiet(s, r);
  }

  lemma RowsCreate(s: System, t: Task, now: int)
    requires WellShaped(s) && Charged(s) && RowsCharged(s) && t.id !in s.history.created && t.retryCount == 0
    ensures RowsCharged(DoCreate(s, t, now))
  {
    hide WellShaped, CopiesCharged, AttemptsCharged, Failing;
    var r := DoCreate(s, t, now);
    assert Failures(r, t.id) == 0;
    assert forall id :: FailingNow(r, id) <==> FailingNow(s, id);
  }

  lemma RowsSubmit(s: System, t: Task, at: int)
    requires RowsCharged(s)
    ensures RowsCharged(DoEnqueue(s, t)) && RowsCharged(DoEnqueueDelayed(s, t, at)) && RowsCharged(DoCompensate(s, t))
  {
    hide RowsCharged, Enqueued, Queues.Delayed, Compensated, Get;
    RowsQuiet(s, DoEnqueue(s, t));
    RowsQuiet(s, DoEnqueueDelayed(s, t, at));
    RowsQuiet(s, DoCompensate(s, t));
  }

  lemma RowsFetch(s: System, p: nat, node: string, name: string, t: Task, now: int)
    requires RowsCharged(s) && p !in s.attempts
    ensures RowsCharged(DoFetch(s, p, node, name, t, now))
  {
    hide RowsCharged, Dequeued;
    RowsMove(s, DoFetch(s, p, node, name, t, now), p, Attempt(node, t, t, Fetched, true, false, false, now));
  }

  lemma RowsExit(s: System, p: nat)
    requires RowsCharged(s) && p in s.attempts && s.attempts[p].phase != Settling
    ensures RowsCharged(Exit(s, p))
  {
    hide RowsCharged, Rivals;
    RowsMove(s, Exit(s, p), p, NoAttempt);
  }

  lemma RowsExtend(s: System, p: nat)
    requires RowsCharged(s) && p in s.attempts && s.attempts[p].phase == Fetched
    ensures RowsCharged(DoExtend(s, p)) && RowsCharged(Exit(DoExtend(s, p), p)) && RowsCharged(Exit(s, p))
  {
    hide RowsCharged, Leased, LongLease, VisibilityMs, Get, Exit;
    RowsMove(s, DoExtend(s, p), p, s.attempts[p].(phase := Loaded));
    RowsExit(DoExtend(s, p), p);
    RowsExit(s, p);
  }

  lemma RowsCheck(s: System, p: nat, readable: bool)
    requires RowsCharged(s) && p in s.attempts && s.attempts[p].phase != Settling
    ensures RowsCharged(DoScreen(s, p, readable)) && RowsCharged(DoTrack(s, p))
    ensures RowsCharged(DoRecheck(s, p, readable))
  {
    hide RowsCharged, SeesTerminal, Rivals;
    RowsMove(s, DoScreen(s, p, readable), p, DoScreen(s, p, readable).attempts[p]);
    RowsMove(s, DoTrack(s, p), p, DoTrack(s, p).attempts[p]);
    RowsMove(s, DoRecheck(s, p, readable), p, DoRecheck(s, p, readable).attempts[p]);
  }

  // ----- steps that write -----

  lemma ChargedRow(s: System, id: string)
    requires RowsCharged(s) && id in s.rows
    ensures CountUpTo(s, id) && (!FailingNow(s, id) ==> s.rows[id].retryCount == Failures(s, id))
  {
    hide FailingNow, CountUpTo, Failures;
  }

  /** What a write of t does to the retry counts. */
  lemma WriteCounts(s: System, t: Task, fault: Fault)
    ensures
      var w := Write(s, t, fault);
      && w == s.(rows := w.rows, history := w.history) && w.history.failures == s.history.failures
      && w.rows.Keys == s.rows.Keys
      && (forall id | id in s.rows && id != t.id :: w.rows[id] == s.rows[id])
      && (t.id in s.rows ==>
            w.rows[t.id].retryCount
            == if Commits(s.rows, t, fault) && t.retryCount != 0 then t.retryCount else s.rows[t.id].retryCount)
  {
    hide Committed, Commits;
    if Commits(s.rows, t, fault) {
      CommitsNeeds(s, t, fault);
      CommittedWrites(s.rows, t);
    }
  }

  lemma CommitsNeeds(s: System, t: Task, fault: Fault)
    requires Commits(s.rows, t, fault)
    ensures t.id in s.rows
  {
  }

  /** Only one attempt has the task. */
  lemma OnlyAttempt(s: System, p: nat)
    requires Tidy(s) && p in s.attempts && !Failing(s.attempts[p], s.attempts[p].task.id)
    ensures !FailingNow(s, s.attempts[p].task.id)
  {
    hide Singles, WaitingFit, InflightFit, UnissuedFit, Holding, RowFits;
  }

  lemma RowsStart(s: System, p: nat, fault: Fault)
    requires WellShaped(s) && Tidy(s) && Charged(s) && RowsCharged(s) && p in s.attempts
    requires s.attempts[p].phase == Cleared
    ensures RowsCharged(DoStart(s, p, fault))
  {
    hide WellShaped, Tidy, Charged, RowsCharged, Write, Succeeds, Commits, Failures, FailingNow, DoStart;
    var t := s.attempts[p].task.(state := Running);
    HeldCharge(s, p);
    OnlyAttempt(s, p);
    if t.id in s.rows {
      ChargedRow(s, t.id);
    }
    WriteCounts(s, t, fault);
    var w := Write(s, t, fault);
    RowsSame(s, w);
    StartMoves(s, p, fault);
    RowsMove(w, DoStart(s, p, fault), p, DoStart(s, p, fault).attempts[p]);
  }

  lemma StartMoves(s: System, p: nat, fault: Fault)
    requires p in s.attempts
    ensures
      var w, r := Write(s, s.attempts[p].task.(state := Running), fault), DoStart(s, p, fault);
      && p in r.attempts && r.attempts == s.attempts[p := r.attempts[p]]
      && r.rows == w.rows && r.history.failures == w.history.failures
  {
    hide Write, Succeeds;
  }

  /** A write that leaves every retry count. */
  lemma RowsSame(s: System, w: System)
    requires RowsCharged(s) && w == s.(rows := w.rows, history := w.history)
    requires w.history.failures == s.history.failures && w.rows.Keys == s.rows.Keys
    requires forall id | id in s.rows :: w.rows[id].retryCount == s.rows[id].retryCount
    ensures RowsCharged(w)
  {
    hide Failing;
    assert forall id :: FailingNow(w, id) <==> FailingNow(s, id);
  }

  lemma RowsFail(s: System, p: nat)
    requires Tidy(s) && RowsCharged(s) && p in s.attempts && s.attempts[p].phase == Handling
    ensures RowsCharged(DoFail(s, p))
  {
    hide Tidy, FailedOnce, DoFail, Failing;
    FailFrame(s, p);
    SameFrame(s, p);
    var r, t := DoFail(s, p), s.attempts[p].task;
    FailedIs(s.attempts[p]);
    assert p in r.attempts && Failing(r.attempts[p], t.id);
    forall id | FailingNow(s, id) ensures FailingNow(r, id) {
      var q :| q in s.attempts && Failing(s.attempts[q], id);
      NotFailing(s.attempts[p], id);
      assert q in r.attempts && Failing(r.attempts[q], id);
    }
  }

  lemma NotFailing(a: Attempt, id: string)
    requires a.phase != Settling
    ensures !Failing(a, id)
  {
  }

  lemma FailedIs(a: Attempt)
    ensures Failing(a.(task := FailedOnce(a.task), phase := Settling), a.task.id)
  {
  }

  lemma SameFrame(s: System, p: nat)
    requires p in s.attempts
    ensures DoFail(s, p).rows == s.rows
    ensures
      var a := s.attempts[p];
      DoFail(s, p).attempts == s.attempts[p := a.(task := FailedOnce(a.task), phase := Settling)]
  {
    hide FailedOnce;
  }

  lemma RowsReturn(s: System, p: nat, ok: bool, shutdown: bool, readable: bool)
    requires Tidy(s) && RowsCharged(s) && p in s.attempts && s.attempts[p].phase == Handling
    ensures RowsCharged(DoReturn(s, p, ok, shutdown, readable))
  {
    hide Tidy, RowsCharged, DoFail;
    var a := s.attempts[p];
    var t := a.task.(state := Completed);
    RowsFail(s, p);
    RowsMove(s, Decide(s, p, t), p, a.(task := t, phase := Settling));
    RowsMove(s, MoveTo(s, p, Acking), p, a.(phase := Acking));
  }

  /** The outcome write lands, so the row has the worker's count, which is the number of failures. */
  lemma RowsSettle(s: System, p: nat)
    requires WellShaped(s) && Tidy(s) && Charged(s) && RowsCharged(s) && p in s.attempts
    requires s.attempts[p].phase == Settling
    ensures RowsCharged(DoSettle(s, p, NoFault))
  {
    hide WellShaped, Tidy, Charged, Write, Exit, Succeeds, Commits, Failing;
    AttemptFits(s, p);
    AttemptsAreCharged(s);
    var a, r := s.attempts[p], DoSettle(s, p, NoFault);
    var t, w := a.task, Write(s, a.task, NoFault);
    WriteCounts(s, t, NoFault);
    ChargedRow(s, t.id);
    SettleLands(s, p);
    SettledCount(s, p);
    assert r == w.(attempts := r.attempts) && r.attempts == s.attempts[p := r.attempts[p]];
    assert r.rows[t.id].retryCount == Failures(s, t.id);
    forall id | id != t.id && FailingNow(s, id) ensures FailingNow(r, id) {
      var q :| q in s.attempts && Failing(s.attempts[q], id);
      FailingOwn(s.attempts[p], id);
      assert q in r.attempts && Failing(r.attempts[q], id);
    }
  }

  lemma FailingOwn(a: Attempt, id: string)
    ensures Failing(a, id) ==> a.task.id == id
  {
  }

  lemma SettleLands(s: System, p: nat)
    requires WellShaped(s) && Tidy(s) && p in s.attempts && s.attempts[p].phase == Settling
    ensures Commits(s.rows, s.attempts[p].task, NoFault) && Succeeds(s.rows, s.attempts[p].task, NoFault)
    ensures s.attempts[p].task.id in s.rows
  {
    hide WellShaped, Tidy, Holding;
    AttemptFits(s, p);
  }

  /** A count of 0 is that of a success without a failure before it, or the row has it already. */
  lemma SettledCount(s: System, p: nat)
    requires Charged(s) && RowsCharged(s) && p in s.attempts && s.attempts[p].phase == Settling
    requires s.attempts[p].task.id in s.rows
    ensures
      var t := s.attempts[p].task;
      t.retryCount == Failures(s, t.id) && (t.retryCount == 0 ==> s.rows[t.id].retryCount == 0)
  {
    hide Charged, Failures, FailingNow;
    AttemptsAreCharged(s);
    ChargedRow(s, s.attempts[p].task.id);
  }

  lemma RowsEnd(s: System, p: nat, at: int)
    requires RowsCharged(s) && p in s.attempts && s.attempts[p].phase != Settling
    ensures RowsCharged(DoAck(s, p, false)) && RowsCharged(DoNack(s, p, at, false))
  {
    hide RowsCharged, Acked, Nacked, Get, Exit;
    var t := s.attempts[p].task;
    var q := Get(s.redis, t.queue);
    var acked := OnQueue(s, t.queue, Acked(q, t.id));
    var nacked := Issue(OnQueue(s, t.queue, Nacked(q, t, at)), t);
    RowsQuiet(s, acked);
    RowsQuiet(s, nacked);
    RowsQuiet(s, Schedule(nacked, t, at));
    RowsExit(acked, p);
    RowsExit(nacked, p);
    RowsExit(Schedule(nacked, t, at), p);
  }

  // ----- the other steps -----

  lemma RowsCrash(s: System, node: string)
    requires RowsCharged(s) && forall p | p in s.attempts && s.attempts[p].node == node :: !Decided(s.attempts[p])
    ensures RowsCharged(DoCrash(s, node))
  {
    hide RowsCharged;
    RowsQuiet(s, DoCrash(s, node));
  }

  lemma RowsDeliver(s: System, node: string, id: string)
    requires RowsCharged(s)
    ensures RowsCharged(DoDeliver(s, node, id))
  {
    hide RowsCharged, DoDeliver;
    var p, b := DeliverMoves(s, node, id);
    RowsQuiet(s, DoDeliver(s, node, id));
  }

  lemma RowsBatch(s: System, name: string, now: int, ts: seq<Task>, ids: seq<string>)
    requires RowsCharged(s)
    ensures RowsCharged(DoPromote(s, name, now, ts))
    ensures RowsCharged(OnQueue(s, name, Reclaimed(Get(s.redis, name), Elements(ids))))
  {
    hide RowsCharged, Promoted, Reclaimed, Get, Stamped;
    RowsQuiet(s, DoPromote(s, name, now, ts));
    RowsQuiet(s, OnQueue(s, name, Reclaimed(Get(s.redis, name), Elements(ids))));
  }

  lemma RowsAside(s: System, t: Task, now: int, id: string, gone: set<string>)
    requires RowsCharged(s)
    ensures RowsCharged(DoScan(s, t, now)) && RowsCharged(DoTouch(s, id, now)) && RowsCharged(DoCleanup(s, gone))
  {
    hide RowsCharged;
    RowsQuiet(s, DoScan(s, t, now));
    RowsQuiet(s, DoTouch(s, id, now));
    RowsQuiet(s, DoCleanup(s, gone));
  }

  lemma RowsWorkerStep(s: System, e: Event)
    requires WellShaped(s) && Tidy(s) && Charged(s) && RowsCharged(s) && Enabled(s, e) && ByWorker(e) && Gentle(s, e)
    ensures RowsCharged(Apply(s, e))
  {
    hide *;
    UnfoldWorker(s, e);
    GentleMeans(s, e);
    CalmMeans(s, e);
    match e
    case Fetch(p, node, name, t, now) => RowsFetch(s, p, node, name, t, now);
    case Extend(p) => RowsExtend(s, p);
    case ExtendFails(p, applied) => RowsExtend(s, p);
    case Screen(p, readable) => RowsCheck(s, p, readable);
    case Track(p) => RowsCheck(s, p, false);
    case Recheck(p, readable) => RowsCheck(s, p, readable);
    case Start(p, fault) => RowsStart(s, p, fault);
    case Return(p, ok, shutdown, readable) => RowsReturn(s, p, ok, shutdown, readable);
    case Settle(p, fault) => RowsSettle(s, p);
    case Ack(p, lost) => RowsEnd(s, p, 0);
    case Nack(p, clock, jitter, lost) => RowsEnd(s, p, RetryAt(s.attempts[p].task, clock, jitter));
    case _ =>
  }

  lemma RowsStep(s: System, e: Event)
    requires WellShaped(s) && Tidy(s) && Charged(s) && RowsCharged(s) && Enabled(s, e) && Gentle(s, e)
    ensures RowsCharged(Apply(s, e))
  {
    hide *;
    if ByWorker(e) {
      RowsWorkerStep(s, e);
      return;
    }
    UnfoldOther(s, e);
    GentleMeans(s, e);
    CalmMeans(s, e);
    match e
    case Create(t, now) => RowsCreate(s, t, now);
    case Enqueue(t) => RowsSubmit(s, t, 0);
    case EnqueueDelayed(t, at) => RowsSubmit(s, t, at);
    case Compensate(t) => RowsSubmit(s, t, 0);
    case Crash(node) => RowsCrash(s, node);
    case Deliver(node, id) => RowsDeliver(s, node, id);
    case CancelWrite(c, fault) => NoCancellers(s);
    case CancelRemove(c, lost) => NoCancellers(s);
    case CancelPublish(c, lost) => NoCancellers(s);
    case Promote(name, now, batch, ts) => RowsBatch(s, name, now, ts, []);
    case Reclaim(name, now, batch, ids) => RowsBatch(s, name, now, [], ids);
    case Scan(t, now, olderThan) => RowsAside(s, t, now, "", {});
    case Touch(id, now) => RowsAside(s, NoTask, now, id, {});
    case Cleanup(gone) => RowsAside(s, NoTask, 0, "", gone);
    case _ =>
  }

  lemma {:induction false} AlwaysRowsCharged(es: seq<Event>)
    requires Exec(Gentle, es).Some?
    ensures RowsCharged(Exec(Gentle, es).value)
  {
    hide Enabled, Apply, Calm, Decided, RowsCharged, FailingNow;
    if es == [] {
      NoRows();
    } else {
      var before := es[..|es| - 1];
      AlwaysRowsCharged(before);
      AlwaysCharged(before);
      RowsStep(Exec(Gentle, before).value, es[|es| - 1]);
    }
  }

  lemma NoRows()
    ensures RowsCharged(Init)
  {
  }

  /** In every run with single delivery: the retry count of a row is the number of failures of its task, unless a
      worker is about to write one more; so it is for every retrying and every failed row. */
  lemma RowCountsFailures(es: seq<Event>, id: string)
    requires Exec(Gentle, es).Some? && id in Exec(Gentle, es).value.rows
    ensures
      var s := Exec(Gentle, es).value;
      var row := s.rows[id];
      && row.retryCount <= Failures(s, id)
      && (row.retryCount == Failures(s, id) || FailingNow(s, id))
      && (row.state == Retrying || row.state == Failed ==> row.retryCount == Failures(s, id))
  {
    hide Exec, WellShaped, Gentle, Charged, Failures;
    AlwaysRowsCharged(es);
    AlwaysCharged(es);
    var s := Exec(Gentle, es).value;
    ChargedRow(s, id);
    if FailingNow(s, id) {
      FailingRowRuns(s, id);
    }
  }

  lemma FailingRowRuns(s: System, id: string)
    requires WellShaped(s) && Tidy(s) && FailingNow(s, id) && id in s.rows
    ensures s.rows[id].state == Running
  {
    hide WellShaped, Tidy, Holding;
    var p :| p in s.attempts && Failing(s.attempts[p], id);
    AttemptFits(s, p);
  }
}
