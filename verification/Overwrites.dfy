/** The race that the optimistic lock does not cover. A cancel that commits after the last state check a
    worker could read makes the Running write fail; the in-memory version has moved on all the same, so the
    handler's outcome, whatever it is, is written over the cancelled row. */
module Overwrites {
  import opened Entities
  import opened TaskTable
  import opened Protocol
  import opened Shape
  import opened Frames
  import opened OptimisticLock
  import opened Walks

  /** An attempt from the return of its handler to the write of its outcome, nobody in between: the handler
      returned `ok` or not, the worker was shutting down or not, the row could be read again or not. */
  function Concluded(s: System, p: nat, ok: bool, shutdown: bool, readable: bool, fault: Fault): System
    requires p in s.attempts
  {
    var returned := DoReturn(s, p, ok, shutdown, readable);
    if p in returned.attempts && returned.attempts[p].phase == Settling then DoSettle(returned, p, fault) else returned
  }

  /** The same from the Running write on. */
  function Finished(s: System, p: nat, start: Fault, ok: bool, shutdown: bool, readable: bool, fault: Fault): System
    requires p in s.attempts
  {
    Concluded(DoStart(s, p, start), p, ok, shutdown, readable, fault)
  }

  /** The handler failed under a cancelled context and the row was read to say cancelled. */
  predicate Stopped(a: Attempt, ok: bool, shutdown: bool, readable: bool) {
    !ok && (a.cancelled || shutdown) && readable
  }

  /** The task as the handler's result leaves it. */
  function Outcome(t: Task, ok: bool): Task {
    if ok then t.(state := Completed) else FailedOnce(t)
  }

  lemma OutcomeIs(t: Task, ok: bool)
    ensures
      var u := Outcome(t, ok);
      && u.id == t.id && u.version == t.version && u.state != Cancelled && u.state != Pending
      && (u.state == Completed <==> ok)
      && (u.state == Retrying <==> !ok && t.retryCount + 1 < t.maxRetries && !t.IsTerminal())
  {
  }

  /** The Running write of a copy whose version the row has left behind changes nothing but the worker. */
  lemma StartMisses(s: System, p: nat, fault: Fault)
    requires p in s.attempts && !LockHolds(s.rows, s.attempts[p].task)
    ensures
      var r, a := DoStart(s, p, fault), s.attempts[p];
      && r.rows == s.rows && InPhase(r, p, Handling) && r.attempts[p].cancelled == a.cancelled
      && r.attempts[p].task == a.task.(state := Running, version := a.task.version + 1)
  {
  }

  lemma ReturnDecides(s: System, p: nat, ok: bool, shutdown: bool, readable: bool)
    requires p in s.attempts && s.attempts[p].task.id in s.rows && s.rows[s.attempts[p].task.id].state == Cancelled
    ensures
      var r, a := DoReturn(s, p, ok, shutdown, readable), s.attempts[p];
      && r.rows == s.rows && p in r.attempts
      && (Stopped(a, ok, shutdown, readable) ==> r.attempts[p].phase == Acking)
      && (!Stopped(a, ok, shutdown, readable) ==>
            r.attempts[p].phase == Settling && r.attempts[p].task == Outcome(a.task, ok))
  {
  }

  /** What the outcome write of task t does to its row: nothing, if its version is not the row's or the call is
      lost; the outcome with the next version otherwise, and then a retrying task goes on to Nack. */
  ghost predicate SettlesInto(s: System, p: nat, t: Task, fault: Fault, r: System) {
    && t.id in s.rows && t.id in r.rows
    && (r.rows[t.id] == s.rows[t.id] <==> s.rows[t.id].version != t.version || fault.LostBefore?)
    && (r.rows[t.id] != s.rows[t.id] ==>
          && r.rows[t.id].state == t.state && r.rows[t.id].version == t.version + 1
          && (t.state == Retrying && fault.NoFault? ==> InPhase(r, p, Nacking) && r.attempts[p].task == Bumped(t)))
  }

  lemma SettleWrites(s: System, p: nat, fault: Fault)
    requires p in s.attempts && s.attempts[p].task.id in s.rows
    requires s.attempts[p].task.version >= 1 && s.attempts[p].task.state != Pending
    ensures SettlesInto(s, p, s.attempts[p].task, fault, DoSettle(s, p, fault))
  {
    hide Write, Exit;
    WriteFrame(s, s.attempts[p].task, fault);
    ExitFrame(Write(s, s.attempts[p].task, fault), p);
  }

  lemma ExitFrame(s: System, p: nat)
    requires p in s.attempts
    ensures Exit(s, p).rows == s.rows && Exit(s, p).history.cancelled == s.history.cancelled
  {
    hide Rivals;
  }

  /** An attempt whose outcome is decided while its row is cancelled, whenever the cancel committed and
      whatever became of the Running write: the row stays as it is if and only if it does not have the
      version in the worker's hands, or the write is lost. */
  lemma SettlingOverwrittenIff(s: System, p: nat, fault: Fault)
    requires Reachable(s) && InPhase(s, p, Settling)
    requires s.attempts[p].task.id in s.rows && s.rows[s.attempts[p].task.id].state == Cancelled
    ensures SettlesInto(s, p, s.attempts[p].task, fault, DoSettle(s, p, fault))
    ensures s.attempts[p].task.state != Cancelled
  {
    hide Exec, WellShaped, DoSettle, SettlesInto;
    var es :| Exec(Anything, es) == Some(s);
    Always(Anything, es);
    AttemptIs(s, p);
    SettleWrites(s, p, fault);
  }

  /** An attempt whose handler runs while its row is cancelled, undisturbed from here. The row stays cancelled if
      and only if the handler stopped for the cancel and the row could be read again, or the row is not
      exactly one version ahead of the copy that was dequeued, or the outcome write is lost. */
  lemma HandlingOverwrittenIff(s: System, p: nat, ok: bool, shutdown: bool, readable: bool, fault: Fault)
    requires Reachable(s) && InPhase(s, p, Handling)
    requires s.attempts[p].task.id in s.rows && s.rows[s.attempts[p].task.id].state == Cancelled
    ensures
      var a, r := s.attempts[p], Concluded(s, p, ok, shutdown, readable, fault);
      && a.task.version == a.copy.version + 1 && Outcome(a.task, ok).state != Cancelled
      && (Stopped(a, ok, shutdown, readable) ==> r.rows == s.rows && InPhase(r, p, Acking))
      && (!Stopped(a, ok, shutdown, readable) ==> SettlesInto(s, p, Outcome(a.task, ok), fault, r))
  {
    hide Exec, WellShaped, DoReturn, DoSettle, Outcome, Stopped;
    var es :| Exec(Anything, es) == Some(s);
    Always(Anything, es);
    AttemptIs(s, p);
    OutcomeIs(s.attempts[p].task, ok);
    ReturnDecides(s, p, ok, shutdown, readable);
    if !Stopped(s.attempts[p], ok, shutdown, readable) {
      SettleWrites(DoReturn(s, p, ok, shutdown, readable), p, fault);
    }
  }

  /** A worker past its second check whose row is cancelled by then, undisturbed from here: the Running write
      fails whatever happens to the call, and the same condition decides. */
  lemma CancelOverwrittenIff(
    s: System, p: nat, start: Fault, ok: bool, shutdown: bool, readable: bool, fault: Fault)
    requires Reachable(s) && InPhase(s, p, Cleared)
    requires s.attempts[p].task.id in s.rows && s.rows[s.attempts[p].task.id].state == Cancelled
    ensures
      var a, r := s.attempts[p], Finished(s, p, start, ok, shutdown, readable, fault);
      var outcome := Outcome(a.task.(state := Running, version := a.task.version + 1), ok);
      && outcome.version == a.task.version + 1 && outcome.state != Cancelled
      && (Stopped(a, ok, shutdown, readable) ==> r.rows == s.rows && InPhase(r, p, Acking))
      && (!Stopped(a, ok, shutdown, readable) ==> SettlesInto(s, p, outcome, fault, r))
  {
    hide Exec, WellShaped, Recorded, DoStart, Concluded, Live, Outcome, Reachable, Enabled, Apply;
    VersionIsLive(s, p);
    StartMisses(s, p, start);
    StartStep(s, p, start);
    RunEmpty(s);
    var es, started := Go(s, [], s, Start(p, start));
    StaysReachable(s, es, started);
    HandlingOverwrittenIff(started, p, ok, shutdown, readable, fault);
    OutcomeIs(started.attempts[p].task, ok);
  }

  /** The worker's version was committed with a state that is not terminal. */
  lemma VersionIsLive(s: System, p: nat)
    requires Reachable(s) && InPhase(s, p, Cleared)
    requires s.attempts[p].task.id in s.rows && s.rows[s.attempts[p].task.id].IsTerminal()
    ensures !LockHolds(s.rows, s.attempts[p].task) && s.attempts[p].task.version >= 1
  {
    hide Exec, WellShaped, CopiesLive, PoolsLive, CancellersLive;
    var es :| Exec(Anything, es) == Some(s);
    Always(Anything, es);
    AttemptIs(s, p);
    AlwaysRecorded(Anything, es);
  }

  // ----- the race -----

  lemma FromNothing(b: Task) returns (es: seq<Event>, s: System)
    requires Fresh(b)
    ensures Exec(Anything, es) == Some(s) && Queued(s, b, b)
    ensures Around(s, b.id) == Around(Init, b.id).(created := map[b.id := b]) && s.cancels == map[]
  {
    hide Queued, Fresh;
    AnythingGoes();
    assert Exec(Anything, []) == Some(Init) && Clean(Init) && EmptyAt(Init, b.queue);
    hide Exec;
    s := Submit(Anything, b, [], Init);
    es := [] + [Create(b, 0)] + [Enqueue(b)];
  }

  /** A worker passes its second check, then the cancel commits. */
  lemma CancelBehind(b: Task, node: string) returns (es: seq<Event>, s: System, row: Task)
    requires Fresh(b)
    ensures Exec(Anything, es) == Some(s) && Working(s, b, row, 0, node, Cleared)
    ensures row.state == Cancelled && row.version == 2
    ensures s.signals == {b.id} && s.history.cancelled == {b.id} && s.history.cleaned == {} && s.cancellers == map[]
    ensures s.history.hearing.delivered == {} && s.history.hearing.overwritten == {}
    ensures s.history.finished == {} && row.id == b.id
    ensures s.cancels == map[(node, b.id) := 0]
  {
    hide Exec, Permits, Queued, OffReady;
    AnythingGoes();
    es, s := FromNothing(b);
    es, s := Clear(Anything, b, b, es, s, 0, node);
    var r;
    es, r, row := CancelNow(b, b, es, s);
    SameQueues(s, r, b);
    s := r;
  }

  lemma ReturnStep(s: System, p: nat)
    requires InPhase(s, p, Handling)
    ensures
      var e, r := Return(p, true, false, true), DoReturn(s, p, true, false, true);
      && Enabled(s, e) && Apply(s, e) == r && InPhase(r, p, Settling)
      && r == s.(attempts := r.attempts, history := r.history) && r.history.cancelled == s.history.cancelled
      && r.attempts[p].task == s.attempts[p].task.(state := Completed)
  {
  }

  lemma SettleStep(s: System, p: nat)
    requires InPhase(s, p, Settling)
    ensures
      var e, r := Settle(p, NoFault), DoSettle(s, p, NoFault);
      Enabled(s, e) && Apply(s, e) == r && r.history.cancelled == s.history.cancelled
  {
    hide Write, Commits, Succeeds, Exit;
    WriteFrame(s, s.attempts[p].task, NoFault);
    ExitFrame(Write(s, s.attempts[p].task, NoFault), p);
  }

  /** The handler returns without error and the outcome is written. */
  lemma Completes(es: seq<Event>, s: System, p: nat) returns (fs: seq<Event>, r: System)
    requires Exec(Anything, es) == Some(s) && InPhase(s, p, Handling)
    ensures es <= fs && Exec(Anything, fs) == Some(r) && r == Concluded(s, p, true, false, true, NoFault)
    ensures r.history.cancelled == s.history.cancelled
  {
    hide Exec, Enabled, Apply, DoReturn, DoSettle;
    ReturnStep(s, p);
    var mid := Then(Anything, es, s, Return(p, true, false, true));
    fs := es + [Return(p, true, false, true)];
    SettleStep(mid, p);
    r := Then(Anything, fs, mid, Settle(p, NoFault));
    fs := fs + [Settle(p, NoFault)];
  }

  /** For every task there is a run in which its cancel commits and its row is completed afterwards. */
  lemma CancelLostRun(b: Task) returns (es: seq<Event>)
    requires Fresh(b)
    ensures Exec(Anything, es).Some?
    ensures
      var s := Exec(Anything, es).value;
      b.id in s.history.cancelled && b.id in s.rows && s.rows[b.id].state == Completed
  {
    hide Exec, Enabled, Apply, Concluded, OffReady, DoStart;
    var s, row;
    es, s, row := CancelBehind(b, "n");
    assert Reachable(s);
    CancelOverwrittenIff(s, 0, NoFault, true, false, true, NoFault);
    StartStep(s, 0, NoFault);
    s := Then(Anything, es, s, Start(0, NoFault));
    es := es + [Start(0, NoFault)];
    es, s := Completes(es, s, 0);
  }

  /** The Running write never reaches the table, and the handler starts all the same. */
  lemma StartsUnwritten(s: System, b: Task, p: nat, node: string)
    requires Working(s, b, b, p, node, Cleared)
    ensures
      var r := DoStart(s, p, LostBefore);
      && r == s.(attempts := r.attempts) && InPhase(r, p, Handling)
      && r.attempts[p].task == b.(state := Running, version := b.version + 1)
  {
    hide OffReady;
  }

  /** The handler of b runs, its row is still pending and no cancel of it was committed. */
  ghost predicate HandledUnwritten(s: System, b: Task) {
    && InPhase(s, 0, Handling) && s.attempts[0].task.id == b.id
    && b.id in s.rows && s.rows[b.id].state == Pending && b.id !in s.history.cancelled
  }

  /** For every task there is a run that comes to such a state `mid`, in which the cancel commits after that
      and the row is completed at the end. */
  lemma LateCancelRun(b: Task) returns (es: seq<Event>, mid: System, fs: seq<Event>, s: System)
    requires Fresh(b)
    ensures Exec(Anything, es) == Some(mid) && HandledUnwritten(mid, b)
    ensures es <= fs && Exec(Anything, fs) == Some(s)
    ensures b.id in s.history.cancelled && b.id in s.rows && s.rows[b.id].state == Completed
  {
    hide Exec, Permits, Queued, OffReady, Enabled, Apply, Concluded, DoStart;
    AnythingGoes();
    es, s := FromNothing(b);
    es, s := Clear(Anything, b, b, es, s, 0, "n");
    StartStep(s, 0, LostBefore);
    StartsUnwritten(s, b, 0, "n");
    mid := Then(Anything, es, s, Start(0, LostBefore));
    es := es + [Start(0, LostBefore)];
    var row;
    fs, s, row := CancelNow(b, b, es, mid);
    assert Reachable(s);
    HandlingOverwrittenIff(s, 0, true, false, true, NoFault);
    OutcomeIs(s.attempts[0].task, true);
    fs, s := Completes(fs, s, 0);
  }
}
