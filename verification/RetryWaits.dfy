/** A retry waits out its backoff. The execution time that Nack computes from its clock, the documented backoff and
    the random draw stays with that version of the task, so the retry is not dequeued before it. */
module RetryWaits {
  import opened Entities
  import opened SortedSets
  import opened Queues
  import opened Timing
  import opened TaskTable
  import opened Protocol
  import opened Shape
  import opened OptimisticLock
  import opened NeverEarly

  /** The steps that give execution times. */
  predicate GivesTime(e: Event) {
    e.EnqueueDelayed? || e.Nack?
  }

  lemma ChecksKeepDue(s: System, p: nat, readable: bool)
    requires p in s.attempts
    ensures DoScreen(s, p, readable).history.times == s.history.times
    ensures DoTrack(s, p).history.times == s.history.times
    ensures DoRecheck(s, p, readable).history.times == s.history.times
  {
    hide SeesTerminal, Rivals;
  }

  lemma ExitKeepsDue(s: System, p: nat)
    requires p in s.attempts
    ensures Exit(s, p).history.times == s.history.times
  {
    hide Rivals;
  }

  lemma ExtendKeepsDue(s: System, p: nat)
    requires p in s.attempts
    ensures DoExtend(s, p).history.times == s.history.times && Exit(DoExtend(s, p), p).history.times == s.history.times
    ensures Exit(s, p).history.times == s.history.times
  {
    hide LongLease, Leased, VisibilityMs, Get, Exit;
    ExitKeepsDue(DoExtend(s, p), p);
    ExitKeepsDue(s, p);
  }

  lemma WritesKeepDue(s: System, p: nat, fault: Fault)
    requires p in s.attempts
    ensures DoStart(s, p, fault).history.times == s.history.times
    ensures DoSettle(s, p, fault).history.times == s.history.times
  {
    hide Commits, Committed, Succeeds, Exit;
    ExitKeepsDue(Write(s, s.attempts[p].task, fault), p);
  }

  lemma ReturnsKeepDue(s: System, p: nat, ok: bool, shutdown: bool, readable: bool)
    requires p in s.attempts
    ensures DoReturn(s, p, ok, shutdown, readable).history.times == s.history.times
    ensures DoFail(s, p).history.times == s.history.times
  {
    hide FailedOnce;
  }

  lemma AckKeepsDue(s: System, p: nat, lost: bool)
    requires p in s.attempts
    ensures DoAck(s, p, lost).history.times == s.history.times
  {
    hide Exit, Acked, Get;
    var t := s.attempts[p].task;
    ExitKeepsDue(if lost then s else OnQueue(s, t.queue, Acked(Get(s.redis, t.queue), t.id)), p);
  }

  lemma FetchKeepsDue(s: System, p: nat, node: string, name: string, t: Task, now: int)
    ensures DoFetch(s, p, node, name, t, now).history.times == s.history.times
  {
    hide Dequeued;
  }

  lemma WorkerKeepsDue(s: System, e: Event)
    requires Enabled(s, e) && ByWorker(e) && !GivesTime(e)
    ensures Apply(s, e).history.times.due == s.history.times.due
  {
    hide *;
    UnfoldWorker(s, e);
    NoTimeGiven(e);
    match e
    case Fetch(p, node, name, t, now) => FetchKeepsDue(s, p, node, name, t, now);
    case Extend(p) => ExtendKeepsDue(s, p);
    case ExtendFails(p, applied) => ExtendKeepsDue(s, p);
    case Screen(p, readable) => ChecksKeepDue(s, p, readable);
    case Track(p) => ChecksKeepDue(s, p, false);
    case Recheck(p, readable) => ChecksKeepDue(s, p, readable);
    case Start(p, fault) => WritesKeepDue(s, p, fault);
    case NoHandler(p) => ReturnsKeepDue(s, p, false, false, false);
    case Return(p, ok, shutdown, readable) => ReturnsKeepDue(s, p, ok, shutdown, readable);
    case Settle(p, fault) => WritesKeepDue(s, p, fault);
    case Ack(p, lost) => AckKeepsDue(s, p, lost);
  }

  lemma NoTimeGiven(e: Event)
    requires !GivesTime(e)
    ensures !e.Nack? && !e.EnqueueDelayed?
  {
  }

  lemma QueueingKeepsDue(s: System, t: Task)
    ensures DoEnqueue(s, t).history.times.due == s.history.times.due
    ensures DoCompensate(s, t).history.times.due == s.history.times.due
  {
    hide Enqueued, Compensated, Get;
  }

  lemma LoopsKeepDue(s: System, t: Task, now: int, name: string, ts: seq<Task>)
    ensures DoPromote(s, name, now, ts).history.times.due == s.history.times.due
    ensures DoCreate(s, t, now).history.times.due == s.history.times.due
    ensures DoScan(s, t, now).history.times.due == s.history.times.due
  {
    hide Promoted, Get, Elements;
  }

  lemma CancelsKeepDue(s: System, c: nat, id: string, fault: Fault, lost: bool)
    ensures id in s.rows ==> DoCancelRead(s, c, id).history.times == s.history.times
    ensures c in s.cancellers ==>
              && DoCancelWrite(s, c, fault).history.times == s.history.times
              && DoCancelRemove(s, c, lost).history.times == s.history.times
              && DoCancelPublish(s, c, lost).history.times == s.history.times
  {
    hide Removed, Get, Commits, Committed, Succeeds;
  }

  lemma AsideKeepsDue(s: System, node: string, id: string, now: int, gone: set<string>, name: string, q: Queue)
    ensures DoCrash(s, node).history.times == s.history.times
    ensures DoDeliver(s, node, id).history.times == s.history.times
    ensures DoTouch(s, id, now).history.times == s.history.times
    ensures DoCleanup(s, gone).history.times == s.history.times
    ensures OnQueue(s, name, q).history.times == s.history.times
  {
  }

  lemma OtherKeepsDue(s: System, e: Event)
    requires Enabled(s, e) && !ByWorker(e) && !GivesTime(e)
    ensures Apply(s, e).history.times.due == s.history.times.due
  {
    hide *;
    UnfoldOther(s, e);
    NoTimeGiven(e);
    match e
    case Create(t, now) => LoopsKeepDue(s, t, now, "", []);
    case Enqueue(t) => QueueingKeepsDue(s, t);
    case Compensate(t) => QueueingKeepsDue(s, t);
    case Scan(t, now, olderThan) => LoopsKeepDue(s, t, now, "", []);
    case Promote(name, now, batch, ts) => LoopsKeepDue(s, NoTask, now, name, ts);
    case CancelRead(c, id) => CancelsKeepDue(s, c, id, NoFault, false);
    case CancelWrite(c, fault) => CancelsKeepDue(s, c, "", fault, false);
    case CancelRemove(c, lost) => CancelsKeepDue(s, c, "", NoFault, lost);
    case CancelPublish(c, lost) => CancelsKeepDue(s, c, "", NoFault, lost);
    case Crash(node) => AsideKeepsDue(s, node, "", 0, {}, "", EmptyQueue);
    case Deliver(node, id) => AsideKeepsDue(s, node, id, 0, {}, "", EmptyQueue);
    case Touch(id, now) => AsideKeepsDue(s, "", id, now, {}, "", EmptyQueue);
    case Cleanup(gone) => AsideKeepsDue(s, "", "", 0, gone, "", EmptyQueue);
    case Reclaim(name, now, batch, ids) =>
      AsideKeepsDue(s, "", "", 0, {}, name, Reclaimed(Get(s.redis, name), Elements(ids)));
  }

  /** Nack gives the retry its time. */
  lemma NackGives(s: System, p: nat, at: int, lost: bool)
    requires p in s.attempts
    ensures
      var t, r := s.attempts[p].task, DoNack(s, p, at, lost);
      r.history.times.due
      == if !lost && t.retryBackoff > 0 then s.history.times.due[Key(t) := at] else s.history.times.due
  {
    hide Nacked, Get, Exit;
    var t := s.attempts[p].task;
    var nacked := Issue(OnQueue(s, t.queue, Nacked(Get(s.redis, t.queue), t, at)), t);
    ExitKeepsDue(if lost then s else if t.retryBackoff > 0 then Schedule(nacked, t, at) else nacked, p);
  }

  /** A version that has an execution time keeps it: nobody gives times to a version that was queued before. */
  lemma DueStaysOnce(s: System, e: Event, key: (string, int), k: Clocks)
    requires WellShaped(s) && Punctual(s, k) && Enabled(s, e) && key in s.history.times.due
    ensures
      var due := Apply(s, e).history.times.due;
      key in due && due[key] == s.history.times.due[key]
  {
    hide Apply, WellShaped, DelayedWaits, ActivePlaced, AttemptsPlaced, ClocksKept, RetryAt, JitterFits;
    if e.Nack? {
      UnfoldWorker(s, e);
      NackGives(s, e.p, RetryAt(s.attempts[e.p].task, e.clock, e.jitter), e.lost);
    } else if e.EnqueueDelayed? {
      UnfoldOther(s, e);
      FreshIs(s, e.t);
      DelayGives(s, e.t, e.at);
    } else if ByWorker(e) {
      WorkerKeepsDue(s, e);
    } else {
      OtherKeepsDue(s, e);
    }
  }

  lemma DelayGives(s: System, t: Task, at: int)
    ensures DoEnqueueDelayed(s, t, at).history.times.due == s.history.times.due[Key(t) := at]
  {
    hide Queues.Delayed, Get;
  }

  lemma {:induction false} DueStays(now: int, es: seq<Event>, mid: seq<Event>, key: (string, int))
    requires Exec(PromotesBy(now), es + mid).Some? && Exec(PromotesBy(now), es).Some?
    requires key in Exec(PromotesBy(now), es).value.history.times.due
    ensures
      var before, after := Exec(PromotesBy(now), es).value.history.times.due,
                           Exec(PromotesBy(now), es + mid).value.history.times.due;
      key in after && after[key] == before[key]
  {
    hide Enabled, Apply, Punctual, WellShaped, PromotesBy;
    if mid == [] {
      assert es + mid == es;
    } else {
      var init := mid[..|mid| - 1];
      assert (es + mid)[..|es + mid| - 1] == es + init;
      DueStays(now, es, init, key);
      var s := Exec(PromotesBy(now), es + init).value;
      RunIsPunctual(now, es + init);
      DueStaysOnce(s, mid[|mid| - 1], key, Clocks(Some(now), None));
    }
  }

  lemma RunIsPunctual(now: int, es: seq<Event>)
    requires Exec(PromotesBy(now), es).Some?
    ensures WellShaped(Exec(PromotesBy(now), es).value)
    ensures Punctual(Exec(PromotesBy(now), es).value, Clocks(Some(now), None))
  {
    hide Exec, Punctual, WellShaped;
    Always(PromotesBy(now), es);
    AlwaysPunctual(PromotesBy(now), es, Clocks(Some(now), None));
  }

  /** In every run with promote clocks not ahead of the dequeue clock: what a successful Nack queued with a backoff is
      not dequeued before Nack's clock plus the backoff plus the random draw, whoever dequeues it and whatever
      happened in between. */
  lemma RetryWaitsBackoff(pre: seq<Event>, n: Event, mid: seq<Event>, f: Event)
    requires n.Nack? && !n.lost && f.Fetch? && Exec(PromotesBy(f.now), pre).Some?
    requires Exec(PromotesBy(f.now), pre + [n] + mid).Some?
    requires Enabled(Exec(PromotesBy(f.now), pre + [n] + mid).value, f)
    requires Enabled(Exec(PromotesBy(f.now), pre).value, n)
    requires
      var t := Exec(PromotesBy(f.now), pre).value.attempts[n.p].task;
      t.retryBackoff > 0 && Key(f.t) == Key(t)
    ensures
      var t := Exec(PromotesBy(f.now), pre).value.attempts[n.p].task;
      && RetryAt(t, n.clock, n.jitter) <= f.now
      && (280 <= t.retryBackoff < TWO_34 ==>
            t.retryCount > 0
            && (n.clock + IdealBackoff(t.retryBackoff, t.retryCount) + n.jitter) / NS_PER_MS <= f.now)
  {
    hide Exec, Enabled, Apply, Punctual, WellShaped, IdealBackoff;
    var s := Exec(PromotesBy(f.now), pre).value;
    RunIsPunctual(f.now, pre);
    UnfoldWorker(s, n);
    NackIsRetry(s, n.p, Clocks(Some(f.now), None));
    var t := s.attempts[n.p].task;
    NackGives(s, n.p, RetryAt(t, n.clock, n.jitter), false);
    OneMore(f.now, pre, n);
    DueStays(f.now, pre + [n], mid, Key(t));
    RetryNeverEarly(pre + [n] + mid, f);
  }

  lemma OneMore(now: int, pre: seq<Event>, n: Event)
    requires Exec(PromotesBy(now), pre).Some? && Enabled(Exec(PromotesBy(now), pre).value, n) && n.Nack?
    ensures Exec(PromotesBy(now), pre + [n]) == Some(Apply(Exec(PromotesBy(now), pre).value, n))
  {
    hide Enabled, Apply;
    ExecAppend(PromotesBy(now), pre, n);
  }

  lemma NackIsRetry(s: System, p: nat, k: Clocks)
    requires WellShaped(s) && Punctual(s, k) && InPhase(s, p, Nacking)
    ensures s.attempts[p].task.version >= 2 && s.attempts[p].task.retryCount > 0
  {
    hide WellShaped, QueuedOnce, TimesKept, DelayedWaits, ActivePlaced, AttemptsPlaced, ClocksKept;
    AttemptIs(s, p);
  }
}
