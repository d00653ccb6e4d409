/** The worker's code for one task, call by call on the two stores, with everybody else at work between any
    two calls. It is shown to be a stretch of a run of the delivery protocol: the states and versions it
    passes to the stores are those of its attempt. */
module Worker {
  import opened Entities
  import opened SortedSets
  import opened Queues
  import opened Timing
  import opened TaskTable
  import opened Broker
  import opened Protocol
  import opened Shape
  import opened Effects
  import opened Delivery
  import opened Cancellation
  import opened Selections
  import opened Interference

  /** What the environment decides during one processTask: which calls fail, whether a handler is
      registered, what it returned, and the clock and random draw of a retry. */
  datatype Circumstances = Circumstances(
    firstRead: bool,
    secondRead: bool,
    registered: bool,
    startFault: Fault,
    succeeds: bool,
    shutdown: bool,
    lastRead: bool,
    settleFault: Fault,
    ackLost: bool,
    nackLost: bool,
    nowNs: int,
    jitter: int)

  predicate JitterOk(t: Task, env: Circumstances) {
    JitterFits(t.retryBackoff, env.jitter)
  }

  // ----- the steps that the circumstances dictate -----

  /** What the stores answered: whether the checks before and after registration and the one after a stopped
      handler saw a terminal row, and whether the retry write succeeded. */
  datatype Answers = Answers(first: bool, second: bool, stopped: bool, wrote: bool)

  /** handleSuccess: the write, and Ack whatever it reports. */
  function SuccessSteps(env: Circumstances, p: nat): seq<Event> {
    [Settle(p, env.settleFault), Ack(p, env.ackLost)]
  }

  /** handleFailure: Nack only after a successful retry write, Ack after the last failure. */
  function FailureSteps(t: Task, env: Circumstances, p: nat, wrote: bool): seq<Event> {
    if t.IsTerminal() || t.retryCount + 1 >= t.maxRetries then [Settle(p, env.settleFault), Ack(p, env.ackLost)]
    else if wrote then [Settle(p, env.settleFault), Nack(p, env.nowNs, env.jitter, env.nackLost)]
    else [Settle(p, env.settleFault)]
  }

  /** From the handler's return. */
  function ConclusionSteps(t: Task, env: Circumstances, p: nat, answers: Answers): seq<Event> {
    [Return(p, env.succeeds, env.shutdown, env.lastRead)]
    + if env.succeeds then SuccessSteps(env, p)
      else if answers.stopped then [Ack(p, env.ackLost)]
      else FailureSteps(t, env, p, answers.wrote)
  }

  /** From the second check on, if the task is not terminal. */
  function ClearedSteps(t: Task, env: Circumstances, p: nat, answers: Answers): seq<Event> {
    if !env.registered then [NoHandler(p)] + FailureSteps(t, env, p, answers.wrote)
    else [Start(p, env.startFault)] + ConclusionSteps(t, env, p, answers)
  }

  /** From registration. */
  function TrackedSteps(t: Task, env: Circumstances, p: nat, answers: Answers): seq<Event> {
    [Recheck(p, env.secondRead)]
    + if answers.second then [Ack(p, env.ackLost)] else ClearedSteps(t, env, p, answers)
  }

  /** The whole of processTask. */
  function TaskSteps(t: Task, env: Circumstances, p: nat, answers: Answers): seq<Event> {
    [Screen(p, env.firstRead)]
    + if answers.first then [Ack(p, env.ackLost)]
      else [Track(p)] + TrackedSteps(t, env, p, answers)
  }

  /** A node's cancel map and cancelled contexts are those of the protocol state. */
  ghost predicate NodeMatches(node: string, cancels: map<string, nat>, cancelled: set<nat>, s: System) {
    && (forall id | id in cancels :: (node, id) in s.cancels && s.cancels[(node, id)] == cancels[id])
    && (forall id | (node, id) in s.cancels :: id in cancels)
    && (forall p | p in s.attempts && s.attempts[p].node == node && s.attempts[p].tracked ::
          s.attempts[p].cancelled <==> p in cancelled)
  }

  /** Attempt p of the node stands at `phase` with task t in hand. */
  ghost predicate StandsAt(s: System, node: string, p: nat, phase: Phase, t: Task) {
    InPhase(s, p, phase) && s.attempts[p].node == node && s.attempts[p].task == t
  }

  /** Queue `names[i]` is the first of the list with a ready copy, and t is one of the highest priority there. */
  predicate FirstChoice(s: System, names: seq<string>, i: nat, t: Task) {
    && i < |names| && (forall j | 0 <= j < i :: Get(s.redis, names[j]).ready == map[])
    && t in Get(s.redis, names[i]).ready && t.queue == names[i]
    && forall u | u in Get(s.redis, names[i]).ready :: u.priority <= t.priority
  }

  class WorkerService {
    const node: string
    const broker: QueueBroker
    const store: TaskRepository
    var cancels: map<string, nat>    // task id to the context of the attempt that registered last
    var cancelled: set<nat>          // contexts that were cancelled

    constructor (node: string, broker: QueueBroker, store: TaskRepository)
      ensures this.node == node && this.broker == broker && this.store == store && cancels == map[] && cancelled == {}
    {
      this.node, this.broker, this.store := node, broker, store;
      cancels, cancelled := map[], {};
    }

    ghost predicate StoresMatch(s: System)
      reads broker, store
    {
      s.redis == broker.queues && s.rows == store.rows && s.touched == store.touched
    }

    /** Stores and node are as in a reachable state of the protocol. */
    ghost predicate Matches(s: System)
      reads this, broker, store
    {
      Reachable(s) && StoresMatch(s) && NodeMatches(node, cancels, cancelled, s)
    }

    /** The attempt has just ended; its deferred untrackCancel is still to come. */
    ghost predicate Over(mid: System, r: System, p: nat, id: string)
      reads this, broker, store
    {
      && Reachable(r) && StoresMatch(r) && NodeMatches(node, cancels, cancelled, mid)
      && p in mid.attempts && mid.attempts[p].node == node
      && mid.attempts[p].task.id == id && mid.attempts[p].tracked && Ended(mid, r, p)
    }

    /** Other goroutines of this node, other workers, cancellers and schedulers: any stretch of a run without
        a step of attempt p. Nothing here says what they do, so callers are right whatever it is. */
    method Others(p: nat, ghost s: System) returns (ghost es: seq<Event>, ghost r: System)
      requires Matches(s) && p in s.attempts
      modifies this, broker, store
      ensures Run(s, es) == Some(r) && Matches(r)
      ensures forall i | 0 <= i < |es| :: !OfAttempt(es[i], p, node)
    {
      es, r := [], s;
      RunEmpty(s);
    }

    /** Between two calls of attempt p. */
    method Between(p: nat, ghost s: System) returns (ghost es: seq<Event>, ghost r: System)
      requires Matches(s) && p in s.attempts && s.attempts[p].node == node
      modifies this, broker, store
      ensures Run(s, es) == Some(r) && Matches(r) && Spares(s, r, p) && Own(es, p, node) == []
    {
      es, r := Others(p, s);
      OthersSpareAttempt(s, es, r, p);
      SelectNone(es, AttemptSteps(p, node));
    }

    method TrackCancel(id: string, context: nat)
      modifies this
      ensures cancels == old(cancels)[id := context] && cancelled == old(cancelled) - {context}
    {
      cancels, cancelled := cancels[id := context], cancelled - {context};
    }

    method UntrackCancel(id: string)
      modifies this
      ensures cancels == old(cancels) - {id} && cancelled == old(cancelled)
    {
      cancels := cancels - {id};
    }

    /** A cancel signal arrives. */
    method CancelRunningTask(id: string, ghost s: System) returns (ok: bool, ghost r: System)
      requires Matches(s) && id in s.signals
      modifies this
      ensures ok <==> id in cancels
      ensures cancels == old(cancels)
      ensures Run(s, [Deliver(node, id)]) == Some(r) && Matches(r)
    {
      hide Reachable;
      AtDeliver(s, node, id);
      RunEmpty(s);
      ghost var es;
      es, r := Go(s, [], s, Deliver(node, id));
      assert es == [Deliver(node, id)];
      StaysReachable(s, es, r);
      ok := id in cancels;
      if ok {
        cancelled := cancelled + {cancels[id]};
      }
    }

    /** Dequeue: the script and the lease extension, whose failure is an error for the caller (`lost`, with the call
        `applied` or not). The copy is of the highest priority in the first queue of the list that has any. */
    method Dequeue(names: seq<string>, now: int, lost: bool, applied: bool, p: nat, ghost s: System)
      returns (task: Option<Task>, failed: bool, ghost i: nat, ghost t: Task, ghost es: seq<Event>, ghost r: System)
      requires Matches(s) && p !in s.attempts
      modifies this, broker, store
      ensures Run(s, es) == Some(r) && Matches(r)
      ensures task.None? && !failed ==> r == s && forall name | name in names :: Get(s.redis, name).ready == map[]
      ensures task.Some? || failed ==>
                FirstChoice(s, names, i, t) && [Fetch(p, node, names[i], t, now)] <= es
                && failed == (lost && LongLease(t))
      ensures task.Some? ==> !failed && task.value == t && StandsAt(r, node, p, Loaded, t)
      ensures failed ==> p !in r.attempts
      ensures task.Some? ==> Own(es, p, node) == [Fetch(p, node, names[i], t, now), Extend(p)]
      ensures failed ==> Own(es, p, node) == [Fetch(p, node, names[i], t, now), ExtendFails(p, applied)]
    {
      hide Run, Reachable, NodeMatches, Dequeued, IsLeast, FirstChoice, LongLease, VisibilityMs, Own;
      es, r, i, t := [], s, 0, NoTask;
      RunEmpty(s);
      var found := broker.DequeueScript(names, now, DEFAULT_VISIBILITY / NS_PER_MS);
      if found.None? {
        return None, false, i, t, es, r;
      }
      var (at, got) := found.value;
      i, t := at, got;
      ghost var fetched;
      es, fetched := FetchRun(s, node, cancels, cancelled, p, names, i, t, now);
      ghost var fs, here := Between(p, fetched);
      es := JoinOwn(s, es, fetched, fs, here, p, node);
      if lost && LongLease(got) {
        if applied {
          broker.ExtendLease(got, now);
        }
        fs, r := ExtendFailsRun(here, node, cancels, cancelled, p, applied);
        es := JoinOwn(s, es, here, fs, r, p, node);
        return None, true, i, t, es, r;
      }
      if LongLease(got) {
        broker.ExtendLease(got, now);
      }
      fs, r := ExtendRun(here, node, cancels, cancelled, p);
      es := JoinOwn(s, es, here, fs, r, p, node);
      return Some(got), false, i, t, es, r;
    }

    /** The Ack that follows the last write. */
    method AckAfter(t: Task, env: Circumstances, p: nat, ghost s: System)
      returns (ghost es: seq<Event>, ghost mid: System, ghost r: System)
      requires Matches(s) && StandsAt(s, node, p, Acking, t) && s.attempts[p].tracked
      modifies this, broker, store
      ensures Run(s, es) == Some(r) && Over(mid, r, p, t.id)
      ensures Own(es, p, node) == [Ack(p, env.ackLost)]
    {
      hide Run, Reachable, NodeMatches, Own, Acked;
      ghost var fs;
      es, mid := Between(p, s);
      fs, r := AckRun(mid, p, env.ackLost);
      if !env.ackLost {
        broker.Ack(t.queue, t.id);
      }
      es := JoinOwn(s, es, mid, fs, r, p, node);
    }

    /** The Nack that follows a successful retry write. */
    method NackAfter(t: Task, env: Circumstances, p: nat, ghost s: System)
      returns (ghost es: seq<Event>, ghost mid: System, ghost r: System)
      requires Matches(s) && StandsAt(s, node, p, Nacking, t) && s.attempts[p].tracked && JitterOk(t, env)
      modifies this, broker, store
      ensures Run(s, es) == Some(r) && Over(mid, r, p, t.id)
      ensures Own(es, p, node) == [Nack(p, env.nowNs, env.jitter, env.nackLost)]
    {
      hide Run, Reachable, NodeMatches, Own, Nacked, RetryTime, JitterFits, IdealBackoff;
      ghost var fs;
      es, mid := Between(p, s);
      fs, r := NackRun(mid, p, env.nowNs, env.jitter, env.nackLost);
      if !env.nackLost {
        broker.Nack(t.queue, t, env.nowNs, env.jitter);
      }
      es := JoinOwn(s, es, mid, fs, r, p, node);
    }

    /** The write of the final state, whatever it reports, and then the Ack. */
    method HandleSuccess(task: Task, env: Circumstances, p: nat, ghost s: System)
      returns (ghost es: seq<Event>, ghost mid: System, ghost r: System)
      requires Matches(s) && StandsAt(s, node, p, Settling, task.(state := Completed))
      modifies this, broker, store
      ensures Run(s, es) == Some(r) && Over(mid, r, p, task.id)
      ensures Own(es, p, node) == SuccessSteps(env, p)
    {
      hide Run, Reachable, NodeMatches, Own, AfterUpdate, Succeeds;
      var t := task.(state := Completed);
      ghost var settled, fs;
      es, settled := SettleRun(s, node, cancels, cancelled, p, env.settleFault);
      var ok;
      t, ok := store.Update(t, env.settleFault);
      fs, mid, r := AckAfter(t, env, p, settled);
      es := JoinOwn(s, es, settled, fs, r, p, node);
    }

    /** A failed attempt: retry with Nack if the retry write succeeded, or fail for good and Ack. */
    method HandleFailure(task: Task, env: Circumstances, p: nat, ghost s: System)
      returns (ghost es: seq<Event>, ghost mid: System, ghost r: System)
      requires Matches(s) && StandsAt(s, node, p, Settling, FailedOnce(task)) && JitterOk(task, env)
      modifies this, broker, store
      ensures Run(s, es) == Some(r) && Over(mid, r, p, task.id)
      ensures Own(es, p, node) == FailureSteps(task, env, p, Succeeds(s.rows, FailedOnce(task), env.settleFault))
    {
      hide Run, Reachable, NodeMatches, Own, AfterUpdate, Succeeds, FailedOnce, Ended;
      FailedOnceIs(task);
      var t := task.(retryCount := task.retryCount + 1);
      var ok;
      ghost var settled, fs;
      if t.CanRetry() {
        t := t.(state := Retrying);
        if Succeeds(s.rows, t, env.settleFault) {
          es, settled := SettleRun(s, node, cancels, cancelled, p, env.settleFault);
        } else {
          mid := s;
          es, r := RefusedRun(s, p, env.settleFault);
        }
        t, ok := store.Update(t, env.settleFault);
        if !ok {
          return;
        }
        fs, mid, r := NackAfter(t, env, p, settled);
      } else {
        t := t.(state := Failed);
        es, settled := SettleRun(s, node, cancels, cancelled, p, env.settleFault);
        t, ok := store.Update(t, env.settleFault);
        fs, mid, r := AckAfter(t, env, p, settled);
      }
      es := JoinOwn(s, es, settled, fs, r, p, node);
    }

    /** A decided outcome, written after others had their turn. */
    method HandleResult(t: Task, env: Circumstances, p: nat, ghost s: System)
      returns (ghost es: seq<Event>, ghost mid: System, ghost r: System, ghost wrote: bool)
      requires Matches(s) && JitterOk(t, env)
      requires StandsAt(s, node, p, Settling, if env.succeeds then t.(state := Completed) else FailedOnce(t))
      modifies this, broker, store
      ensures Run(s, es) == Some(r) && Over(mid, r, p, t.id)
      ensures Own(es, p, node) == if env.succeeds then SuccessSteps(env, p) else FailureSteps(t, env, p, wrote)
    {
      hide Run, Reachable, FailedOnce, NodeMatches, Own, FailureSteps, SuccessSteps, Succeeds;
      ghost var fs, here;
      es, here := Between(p, s);
      wrote := false;
      if env.succeeds {
        fs, mid, r := HandleSuccess(t, env, p, here);
      } else {
        wrote := Succeeds(here.rows, FailedOnce(t), env.settleFault);
        fs, mid, r := HandleFailure(t, env, p, here);
      }
      es := JoinOwn(s, es, here, fs, r, p, node);
    }

    /** What the handler's result leads to. A failure under a cancelled context is checked against the row. */
    method Conclude(t: Task, env: Circumstances, p: nat, ghost s: System)
      returns (ghost es: seq<Event>, ghost mid: System, ghost r: System, ghost answers: Answers)
      requires Matches(s) && StandsAt(s, node, p, Handling, t) && JitterOk(t, env)
      modifies this, broker, store
      ensures Run(s, es) == Some(r) && Over(mid, r, p, t.id)
      ensures Own(es, p, node) == ConclusionSteps(t, env, p, answers) && !answers.first && !answers.second
    {
      hide Run, Reachable, FailedOnce, NodeMatches, Own, FailureSteps, SuccessSteps;
      ContextIs(node, cancels, cancelled, s, p);
      var stopped := false;
      if !env.succeeds && (p in cancelled || env.shutdown) {
        var latest := store.Get(t.id);
        stopped := env.lastRead && latest.Some? && latest.value.state == Cancelled;
      }
      ghost var after, fs;
      ghost var wrote := false;
      es, after := ReturnRun(s, node, cancels, cancelled, p, env.succeeds, env.shutdown, env.lastRead);
      if stopped {
        fs, mid, r := AckAfter(t, env, p, after);
      } else {
        fs, mid, r, wrote := HandleResult(t, env, p, after);
      }
      answers := Answers(false, false, stopped, wrote);
      es := JoinOwn(s, es, after, fs, r, p, node);
    }

    /** The Running write, whose failure is only logged, and then the handler. */
    method Handle(task: Task, env: Circumstances, p: nat, ghost s: System)
      returns (ghost es: seq<Event>, ghost mid: System, ghost r: System, ghost answers: Answers)
      requires Matches(s) && StandsAt(s, node, p, Cleared, task) && JitterOk(task, env)
      modifies this, broker, store
      ensures Run(s, es) == Some(r) && Over(mid, r, p, task.id)
      ensures Own(es, p, node) == [Start(p, env.startFault)] + ConclusionSteps(task, env, p, answers)
      ensures !answers.first && !answers.second
    {
      hide Run, Reachable, NodeMatches, AfterUpdate, Succeeds, Own, ConclusionSteps;
      ClearedIsLive(s, p);
      ghost var started;
      es, started := StartRun(s, node, cancels, cancelled, p, env.startFault);
      var t, ok := store.Update(task.(state := Running), env.startFault);
      ghost var gs, after := Between(p, started);
      es := JoinOwn(s, es, started, gs, after, p, node);
      ghost var fs;
      fs, mid, r, answers := Conclude(t, env, p, after);
      SameConclusion(task, t, env, p, answers);
      es := JoinOwn(s, es, after, fs, r, p, node);
    }

    /** A task that passed the second check: without a handler for its type it has failed. */
    method ProcessCleared(task: Task, env: Circumstances, p: nat, ghost s: System)
      returns (ghost es: seq<Event>, ghost mid: System, ghost r: System, ghost answers: Answers)
      requires Matches(s) && StandsAt(s, node, p, Cleared, task) && JitterOk(task, env)
      modifies this, broker, store
      ensures Run(s, es) == Some(r) && Over(mid, r, p, task.id)
      ensures Own(es, p, node) == ClearedSteps(task, env, p, answers) && !answers.first && !answers.second
    {
      hide Run, Reachable, NodeMatches, FailedOnce, Own, ConclusionSteps, FailureSteps, Succeeds;
      if !env.registered {
        ghost var failed, fs;
        es, failed := NoHandlerRun(s, node, cancels, cancelled, p);
        answers := Answers(false, false, false, Succeeds(failed.rows, FailedOnce(task), env.settleFault));
        fs, mid, r := HandleFailure(task, env, p, failed);
        es := JoinOwn(s, es, failed, fs, r, p, node);
      } else {
        es, mid, r, answers := Handle(task, env, p, s);
      }
    }

    /** The part of processTask between trackCancel and the deferred untrackCancel. */
    method ProcessTracked(task: Task, env: Circumstances, p: nat, ghost s: System)
      returns (ghost es: seq<Event>, ghost mid: System, ghost r: System, ghost answers: Answers)
      requires Matches(s) && StandsAt(s, node, p, Tracked, task) && JitterOk(task, env)
      modifies this, broker, store
      ensures Run(s, es) == Some(r) && Over(mid, r, p, task.id)
      ensures Own(es, p, node) == TrackedSteps(task, env, p, answers) && !answers.first
    {
      hide Run, Reachable, NodeMatches, Own, ClearedSteps;
      var latest := store.Get(task.id);
      var terminal := env.secondRead && latest.Some? && latest.value.IsTerminal();
      ghost var checked;
      es, checked := RecheckRun(s, node, cancels, cancelled, p, env.secondRead);
      ghost var gs, after := Between(p, checked);
      es := JoinOwn(s, es, checked, gs, after, p, node);
      ghost var fs;
      answers := Answers(false, terminal, false, false);
      if terminal {
        fs, mid, r := AckAfter(task, env, p, after);
      } else {
        fs, mid, r, answers := ProcessCleared(task, env, p, after);
      }
      es := JoinOwn(s, es, after, fs, r, p, node);
    }

    /** From a passed first check: registration, and the deferred untrackCancel on every path after it. */
    method ProcessScreened(task: Task, env: Circumstances, p: nat, ghost s: System)
      returns (ghost es: seq<Event>, ghost r: System, ghost answers: Answers)
      requires Matches(s) && StandsAt(s, node, p, Screened, task) && JitterOk(task, env)
      modifies this, broker, store
      ensures Run(s, es) == Some(r) && Matches(r) && p !in r.attempts
      ensures Own(es, p, node) == [Track(p)] + TrackedSteps(task, env, p, answers) && !answers.first
    {
      hide Run, Reachable, NodeMatches, Own, TrackedSteps;
      ghost var here, tracked, fs, mid;
      es, tracked := TrackRun(s, node, cancels, cancelled, p);
      TrackCancel(task.id, p);
      fs, here := Between(p, tracked);
      es := JoinOwn(s, es, tracked, fs, here, p, node);
      fs, mid, r, answers := ProcessTracked(task, env, p, here);
      es := JoinOwn(s, es, here, fs, r, p, node);
      NodeEnds(node, cancels, cancelled, mid, r, p);
      UntrackCancel(task.id);
    }

    /** One delivered task from Dequeue's return to the end, whatever others do in between: its own steps are
        exactly those that the circumstances dictate. */
    method ProcessTask(task: Task, env: Circumstances, p: nat, ghost s: System)
      returns (ghost es: seq<Event>, ghost r: System, ghost answers: Answers)
      requires Matches(s) && StandsAt(s, node, p, Loaded, task) && JitterOk(task, env)
      modifies this, broker, store
      ensures Run(s, es) == Some(r) && Matches(r) && p !in r.attempts
      ensures Own(es, p, node) == TaskSteps(task, env, p, answers)
    {
      hide Run, Reachable, NodeMatches, Acked, Own, TrackedSteps;
      ghost var here, screened, fs;
      es, here := Between(p, s);
      var latest := store.Get(task.id);
      var terminal := env.firstRead && latest.Some? && latest.value.IsTerminal();
      fs, screened := ScreenRun(here, node, cancels, cancelled, p, env.firstRead);
      es := JoinOwn(s, es, here, fs, screened, p, node);
      fs, here := Between(p, screened);
      es := JoinOwn(s, es, screened, fs, here, p, node);
      answers := Answers(terminal, false, false, false);
      if terminal {
        fs, r := AckRun(here, p, env.ackLost);
        NodeEndsUntracked(node, cancels, cancelled, here, r, p);
        if !env.ackLost {
          broker.Ack(task.queue, task.id);
        }
      } else {
        fs, r, answers := ProcessScreened(task, env, p, here);
      }
      es := JoinOwn(s, es, here, fs, r, p, node);
    }
  }

  lemma FailedOnceIs(t: Task)
    ensures
      var u := t.(retryCount := t.retryCount + 1);
      FailedOnce(t) == u.(state := if u.CanRetry() then Retrying else Failed)
  {
  }

  /** The version and the Running state have no say in how a failure is handled. */
  lemma SameConclusion(t: Task, u: Task, env: Circumstances, p: nat, answers: Answers)
    requires u.retryCount == t.retryCount && u.maxRetries == t.maxRetries && u.IsTerminal() == t.IsTerminal()
    ensures ConclusionSteps(u, env, p, answers) == ConclusionSteps(t, env, p, answers)
  {
  }

  // ----- the matching stretches of the protocol -----

  lemma JoinOwn(s: System, es: seq<Event>, mid: System, fs: seq<Event>, r: System, p: nat, node: string)
    returns (all: seq<Event>)
    requires Run(s, es) == Some(mid) && Run(mid, fs) == Some(r)
    ensures Run(s, all) == Some(r) && all == es + fs
    ensures Own(all, p, node) == Own(es, p, node) + Own(fs, p, node)
    ensures Own(es, p, node) == [] ==> Own(all, p, node) == Own(fs, p, node)
    ensures Own(fs, p, node) == [] ==> Own(all, p, node) == Own(es, p, node)
  {
    hide Run, Select;
    all := Join(s, es, mid, fs, r);
    SelectConcat(es, fs, AttemptSteps(p, node));
  }

  /** Attempt p moves; the node's part of the state stays as it was. */
  lemma NodeMoved(
    node: string, cancels: map<string, nat>, cancelled: set<nat>, s: System, r: System, p: nat, b: Attempt)
    requires NodeMatches(node, cancels, cancelled, s) && p in s.attempts
    requires r.attempts == s.attempts[p := b] && r.cancels == s.cancels
    requires b.node == s.attempts[p].node && b.tracked == s.attempts[p].tracked
    requires b.cancelled == s.attempts[p].cancelled
    ensures NodeMatches(node, cancels, cancelled, r)
  {
  }

  lemma ClearedIsLive(s: System, p: nat)
    requires Reachable(s) && InPhase(s, p, Cleared)
    ensures !s.attempts[p].task.IsTerminal()
  {
    hide Exec, WellShaped;
    var es :| Exec(Anything, es) == Some(s);
    Always(Anything, es);
    AttemptIs(s, p);
  }

  lemma TrackedBy(s: System, p: nat)
    requires Reachable(s) && p in s.attempts
    ensures PhaseOk(s.attempts[p])
  {
    hide Reachable, EntryOk, Hears, Attentive;
    ReachableIsAttentive(s);
    PhaseIs(s, p);
  }

  lemma NodeFetched(
    node: string, cancels: map<string, nat>, cancelled: set<nat>, s: System, r: System, p: nat, b: Attempt)
    requires NodeMatches(node, cancels, cancelled, s) && r.attempts == s.attempts[p := b] && r.cancels == s.cancels
    requires p !in s.attempts && !b.tracked
    ensures NodeMatches(node, cancels, cancelled, r)
  {
  }

  lemma FetchRun(
    s: System, node: string, cancels: map<string, nat>, cancelled: set<nat>, p: nat, names: seq<string>, i: nat,
        t: Task,
    now: int)
    returns (es: seq<Event>, r: System)
    requires Reachable(s) && NodeMatches(node, cancels, cancelled, s) && p !in s.attempts
    requires i < |names| && IsLeast(Get(s.redis, names[i]).ready, t)
    requires forall j | 0 <= j < i :: Get(s.redis, names[j]).ready == map[]
    ensures es == [Fetch(p, node, names[i], t, now)] && Run(s, es) == Some(r)
    ensures Reachable(r) && NodeMatches(node, cancels, cancelled, r) && FirstChoice(s, names, i, t)
    ensures r.rows == s.rows && r.touched == s.touched
    ensures r.redis == Dequeued(s.redis, names[i], t, now + DEFAULT_VISIBILITY / NS_PER_MS)
    ensures r.attempts == s.attempts[p := Attempt(node, t, t, Fetched, true, false, false, now)]
    ensures Own(es, p, node) == [Fetch(p, node, names[i], t, now)]
  {
    hide Run, Enabled, Apply, Reachable, NodeMatches, Dequeued, IsLeast;
    RunEmpty(s);
    SelectOne(Fetch(p, node, names[i], t, now), AttemptSteps(p, node));
    AtFetch(s, p, node, names[i], t, now);
    HighestPriorityFirst(s, Fetch(p, node, names[i], t, now));
    es, r := Go(s, [], s, Fetch(p, node, names[i], t, now));
    StaysReachable(s, es, r);
    NodeFetched(node, cancels, cancelled, s, r, p, Attempt(node, t, t, Fetched, true, false, false, now));
  }

  lemma ExtendRun(s: System, node: string, cancels: map<string, nat>, cancelled: set<nat>, p: nat)
    returns (es: seq<Event>, r: System)
    requires Reachable(s) && NodeMatches(node, cancels, cancelled, s) && InPhase(s, p, Fetched)
    ensures Run(s, es) == Some(r) && Reachable(r) && NodeMatches(node, cancels, cancelled, r)
    ensures
      var a := s.attempts[p];
      && r.rows == s.rows && r.touched == s.touched && r.redis == Longer(s.redis, a.task, a.fetchedAt)
      && StandsAt(r, a.node, p, Loaded, a.task)
    ensures Own(es, p, s.attempts[p].node) == [Extend(p)]
  {
    hide Run, Enabled, Apply, Reachable, NodeMatches, Longer, DoExtend;
    RunEmpty(s);
    SelectOne(Extend(p), AttemptSteps(p, s.attempts[p].node));
    AtExtend(s, p);
    ExtendIs(s, p);
    es, r := Go(s, [], s, Extend(p));
    StaysReachable(s, es, r);
    NodeMoved(node, cancels, cancelled, s, r, p, r.attempts[p]);
  }

  lemma ExtendFailsRun(
    s: System, node: string, cancels: map<string, nat>, cancelled: set<nat>, p: nat, applied: bool)
    returns (es: seq<Event>, r: System)
    requires Reachable(s) && NodeMatches(node, cancels, cancelled, s) && InPhase(s, p, Fetched)
    requires LongLease(s.attempts[p].task)
    ensures Run(s, es) == Some(r) && Reachable(r) && NodeMatches(node, cancels, cancelled, r) && p !in r.attempts
    ensures r.rows == s.rows && r.touched == s.touched
    ensures r.redis == if applied then Longer(s.redis, s.attempts[p].task, s.attempts[p].fetchedAt) else s.redis
    ensures Own(es, p, s.attempts[p].node) == [ExtendFails(p, applied)]
  {
    hide Run, Enabled, Apply, Reachable, NodeMatches, Longer, LongLease;
    RunEmpty(s);
    SelectOne(ExtendFails(p, applied), AttemptSteps(p, s.attempts[p].node));
    TrackedBy(s, p);
    AtExtendFails(s, p, applied);
    es, r := Go(s, [], s, ExtendFails(p, applied));
    StaysReachable(s, es, r);
    NodeEndsUntracked(node, cancels, cancelled, s, r, p);
  }

  /** The outcome's write, when it does not end the attempt. */
  lemma SettleRun(s: System, node: string, cancels: map<string, nat>, cancelled: set<nat>, p: nat, fault: Fault)
    returns (es: seq<Event>, r: System)
    requires Reachable(s) && NodeMatches(node, cancels, cancelled, s) && InPhase(s, p, Settling)
    requires s.attempts[p].task.state == Retrying ==> Succeeds(s.rows, s.attempts[p].task, fault)
    ensures Run(s, es) == Some(r) && Reachable(r) && NodeMatches(node, cancels, cancelled, r)
    ensures r.redis == s.redis && r.touched == s.touched && r.rows == AfterUpdate(s.rows, s.attempts[p].task, fault)
    ensures
      var a := s.attempts[p];
      InPhase(r, p, if a.task.state == Retrying then Nacking else Acking) && r.attempts[p].task == Bumped(a.task)
      && r.attempts[p].node == a.node
      && r.attempts[p].tracked
    ensures Own(es, p, s.attempts[p].node) == [Settle(p, fault)]
  {
    hide Run, Enabled, Apply, Reachable, NodeMatches, AfterUpdate, Succeeds;
    RunEmpty(s);
    SelectOne(Settle(p, fault), AttemptSteps(p, s.attempts[p].node));
    AtSettle(s, p, fault);
    TrackedBy(s, p);
    es, r := Go(s, [], s, Settle(p, fault));
    StaysReachable(s, es, r);
    NodeMoved(node, cancels, cancelled, s, r, p, r.attempts[p]);
  }

  lemma AckRun(s: System, p: nat, lost: bool) returns (es: seq<Event>, r: System)
    requires Reachable(s) && InPhase(s, p, Acking)
    ensures Run(s, es) == Some(r) && Reachable(r) && Ended(s, r, p) && r.rows == s.rows && r.touched == s.touched
    ensures
      var t := s.attempts[p].task;
      r.redis == if lost then s.redis else s.redis[t.queue := Acked(Get(s.redis, t.queue), t.id)]
    ensures Own(es, p, s.attempts[p].node) == [Ack(p, lost)]
  {
    hide Run, Enabled, Apply, Acked, Get, Reachable;
    RunEmpty(s);
    SelectOne(Ack(p, lost), AttemptSteps(p, s.attempts[p].node));
    AtAck(s, p, lost);
    es, r := Go(s, [], s, Ack(p, lost));
    StaysReachable(s, es, r);
  }

  lemma NackRun(s: System, p: nat, clock: int, jitter: int, lost: bool) returns (es: seq<Event>, r: System)
    requires Reachable(s) && InPhase(s, p, Nacking) && JitterFits(s.attempts[p].task.retryBackoff, jitter)
    ensures Run(s, es) == Some(r) && Reachable(r) && Ended(s, r, p) && r.rows == s.rows && r.touched == s.touched
    ensures
      var t := s.attempts[p].task;
      var at := RetryAt(t, clock, jitter);
      r.redis == if lost then s.redis else s.redis[t.queue := Nacked(Get(s.redis, t.queue), t, at)]
    ensures Own(es, p, s.attempts[p].node) == [Nack(p, clock, jitter, lost)]
  {
    hide Run, Enabled, Apply, Nacked, Get, Reachable;
    RunEmpty(s);
    SelectOne(Nack(p, clock, jitter, lost), AttemptSteps(p, s.attempts[p].node));
    AtNack(s, p, clock, jitter, lost);
    es, r := Go(s, [], s, Nack(p, clock, jitter, lost));
    StaysReachable(s, es, r);
  }

  /** A retry write that did not succeed ends the attempt. */
  lemma RefusedRun(s: System, p: nat, fault: Fault) returns (es: seq<Event>, r: System)
    requires Reachable(s) && InPhase(s, p, Settling) && s.attempts[p].task.state == Retrying
    requires !Succeeds(s.rows, s.attempts[p].task, fault)
    ensures Run(s, es) == Some(r) && Reachable(r) && Ended(s, r, p) && r.redis == s.redis && r.touched == s.touched
    ensures r.rows == AfterUpdate(s.rows, s.attempts[p].task, fault) && s.attempts[p].tracked
    ensures Own(es, p, s.attempts[p].node) == [Settle(p, fault)]
  {
    hide Run, Enabled, Apply, Reachable, AfterUpdate, Succeeds;
    RunEmpty(s);
    SelectOne(Settle(p, fault), AttemptSteps(p, s.attempts[p].node));
    AtSettle(s, p, fault);
    TrackedBy(s, p);
    es, r := Go(s, [], s, Settle(p, fault));
    StaysReachable(s, es, r);
  }

  lemma ContextIs(node: string, cancels: map<string, nat>, cancelled: set<nat>, s: System, p: nat)
    requires Reachable(s) && NodeMatches(node, cancels, cancelled, s)
    requires InPhase(s, p, Handling) && s.attempts[p].node == node
    ensures s.attempts[p].tracked && (s.attempts[p].cancelled <==> p in cancelled)
  {
    hide Reachable;
    TrackedBy(s, p);
  }

  lemma ReturnRun(
    s: System, node: string, cancels: map<string, nat>, cancelled: set<nat>, p: nat, ok: bool, shutdown: bool,
    readable: bool)
    returns (es: seq<Event>, r: System)
    requires Reachable(s) && NodeMatches(node, cancels, cancelled, s) && InPhase(s, p, Handling)
    ensures Run(s, es) == Some(r) && Reachable(r) && NodeMatches(node, cancels, cancelled, r) && SameStores(s, r)
    ensures
      var a := s.attempts[p];
      && p in r.attempts && r.attempts[p].node == a.node
      && r.attempts[p].tracked == a.tracked && r.attempts[p].task.id == a.task.id
      && (ok ==> r.attempts[p].phase == Settling && r.attempts[p].task == a.task.(state := Completed))
      && (!ok && Stopped(s, a, shutdown, readable) ==> r.attempts[p].phase == Acking && r.attempts[p].task == a.task)
      && (!ok && !Stopped(s, a, shutdown, readable) ==>
            r.attempts[p].phase == Settling && r.attempts[p].task == FailedOnce(a.task))
    ensures Own(es, p, s.attempts[p].node) == [Return(p, ok, shutdown, readable)]
  {
    hide Run, Enabled, Apply, Reachable, NodeMatches, DoFail, FailedOnce, Stopped;
    RunEmpty(s);
    SelectOne(Return(p, ok, shutdown, readable), AttemptSteps(p, s.attempts[p].node));
    if ok {
      AtReturnOk(s, p, shutdown, readable);
    } else if Stopped(s, s.attempts[p], shutdown, readable) {
      AtReturnStopped(s, p, shutdown, readable);
    } else {
      AtReturnFailed(s, p, shutdown, readable);
      AfterFail(s, p);
    }
    es, r := Go(s, [], s, Return(p, ok, shutdown, readable));
    StaysReachable(s, es, r);
    NodeMoved(node, cancels, cancelled, s, r, p, r.attempts[p]);
  }

  lemma StartRun(s: System, node: string, cancels: map<string, nat>, cancelled: set<nat>, p: nat, fault: Fault)
    returns (es: seq<Event>, r: System)
    requires Reachable(s) && NodeMatches(node, cancels, cancelled, s) && InPhase(s, p, Cleared)
    ensures Run(s, es) == Some(r) && Reachable(r) && NodeMatches(node, cancels, cancelled, r)
    ensures
      var a := s.attempts[p];
      var t := a.task.(state := Running);
      && r.redis == s.redis && r.touched == s.touched && r.rows == AfterUpdate(s.rows, t, fault)
      && InPhase(r, p, Handling) && r.attempts[p].task == Bumped(t) && r.attempts[p].node == a.node
    ensures Own(es, p, s.attempts[p].node) == [Start(p, fault)]
  {
    hide Run, Enabled, Apply, Reachable, NodeMatches, AfterUpdate, Succeeds;
    RunEmpty(s);
    SelectOne(Start(p, fault), AttemptSteps(p, s.attempts[p].node));
    AtStart(s, p, fault);
    es, r := Go(s, [], s, Start(p, fault));
    StaysReachable(s, es, r);
    NodeMoved(node, cancels, cancelled, s, r, p, r.attempts[p]);
  }

  lemma NoHandlerRun(s: System, node: string, cancels: map<string, nat>, cancelled: set<nat>, p: nat)
    returns (es: seq<Event>, r: System)
    requires Reachable(s) && NodeMatches(node, cancels, cancelled, s) && InPhase(s, p, Cleared)
    ensures Run(s, es) == Some(r) && Reachable(r) && NodeMatches(node, cancels, cancelled, r) && SameStores(s, r)
    ensures InPhase(r, p, Settling) && r.attempts[p].task == FailedOnce(s.attempts[p].task)
    ensures r.attempts[p].node == s.attempts[p].node
    ensures Own(es, p, s.attempts[p].node) == [NoHandler(p)]
  {
    hide Run, Enabled, Apply, Reachable, NodeMatches, DoFail, FailedOnce;
    RunEmpty(s);
    SelectOne(NoHandler(p), AttemptSteps(p, s.attempts[p].node));
    AtNoHandler(s, p);
    AfterFail(s, p);
    es, r := Go(s, [], s, NoHandler(p));
    StaysReachable(s, es, r);
    NodeMoved(node, cancels, cancelled, s, r, p, r.attempts[p]);
  }

  lemma ScreenRun(s: System, node: string, cancels: map<string, nat>, cancelled: set<nat>, p: nat, readable: bool)
    returns (es: seq<Event>, r: System)
    requires Reachable(s) && NodeMatches(node, cancels, cancelled, s) && InPhase(s, p, Loaded)
    ensures Run(s, es) == Some(r) && Reachable(r) && NodeMatches(node, cancels, cancelled, r) && SameStores(s, r)
    ensures
      var a := s.attempts[p];
      && p in r.attempts && r.attempts[p].node == a.node && r.attempts[p].task == a.task
      && !r.attempts[p].tracked && !r.attempts[p].cancelled
      && r.attempts[p].phase
         == if readable && a.task.id in s.rows && s.rows[a.task.id].IsTerminal() then Acking else Screened
    ensures Own(es, p, s.attempts[p].node) == [Screen(p, readable)]
  {
    hide Run, Enabled, Apply, Reachable, NodeMatches;
    RunEmpty(s);
    SelectOne(Screen(p, readable), AttemptSteps(p, s.attempts[p].node));
    TrackedBy(s, p);
    AtScreen(s, p, readable);
    es, r := Go(s, [], s, Screen(p, readable));
    StaysReachable(s, es, r);
    NodeMoved(node, cancels, cancelled, s, r, p, r.attempts[p]);
  }

  lemma RecheckRun(s: System, node: string, cancels: map<string, nat>, cancelled: set<nat>, p: nat, readable: bool)
    returns (es: seq<Event>, r: System)
    requires Reachable(s) && NodeMatches(node, cancels, cancelled, s) && InPhase(s, p, Tracked)
    ensures Run(s, es) == Some(r) && Reachable(r) && NodeMatches(node, cancels, cancelled, r) && SameStores(s, r)
    ensures
      var a := s.attempts[p];
      && p in r.attempts && r.attempts[p].node == a.node && r.attempts[p].task == a.task && r.attempts[p].tracked
      && r.attempts[p].phase
         == if readable && a.task.id in s.rows && s.rows[a.task.id].IsTerminal() then Acking else Cleared
    ensures Own(es, p, s.attempts[p].node) == [Recheck(p, readable)]
  {
    hide Run, Enabled, Apply, Reachable, NodeMatches;
    RunEmpty(s);
    SelectOne(Recheck(p, readable), AttemptSteps(p, s.attempts[p].node));
    TrackedBy(s, p);
    AtRecheck(s, p, readable);
    es, r := Go(s, [], s, Recheck(p, readable));
    StaysReachable(s, es, r);
    NodeMoved(node, cancels, cancelled, s, r, p, r.attempts[p]);
  }

  /** The registration, as TrackCancel makes it. */
  lemma TrackRun(s: System, node: string, cancels: map<string, nat>, cancelled: set<nat>, p: nat)
    returns (es: seq<Event>, r: System)
    requires Reachable(s) && NodeMatches(node, cancels, cancelled, s)
    requires InPhase(s, p, Screened) && s.attempts[p].node == node
    ensures Run(s, es) == Some(r) && Reachable(r) && SameStores(s, r)
    ensures NodeMatches(node, cancels[s.attempts[p].task.id := p], cancelled - {p}, r)
    ensures InPhase(r, p, Tracked) && r.attempts[p].node == node && r.attempts[p].task == s.attempts[p].task
    ensures Own(es, p, s.attempts[p].node) == [Track(p)]
  {
    hide Run, Enabled, Apply, Reachable, NodeMatches;
    RunEmpty(s);
    SelectOne(Track(p), AttemptSteps(p, s.attempts[p].node));
    TrackedBy(s, p);
    AtTrack(s, p);
    es, r := Go(s, [], s, Track(p));
    StaysReachable(s, es, r);
    NodeTracked(node, cancels, cancelled, s, r, p);
  }

  lemma NodeTracked(node: string, cancels: map<string, nat>, cancelled: set<nat>, s: System, r: System, p: nat)
    requires NodeMatches(node, cancels, cancelled, s) && p in s.attempts
    requires s.attempts[p].node == node && !s.attempts[p].cancelled
    requires r.attempts == s.attempts[p := s.attempts[p].(phase := Tracked, tracked := true)]
    requires r.cancels == s.cancels[(node, s.attempts[p].task.id) := p]
    ensures NodeMatches(node, cancels[s.attempts[p].task.id := p], cancelled - {p}, r)
  {
  }

  /** The end of an attempt, as UntrackCancel completes it. */
  lemma NodeEnds(node: string, cancels: map<string, nat>, cancelled: set<nat>, s: System, r: System, p: nat)
    requires NodeMatches(node, cancels, cancelled, s) && p in s.attempts
    requires s.attempts[p].node == node && s.attempts[p].tracked && Ended(s, r, p)
    ensures NodeMatches(node, cancels - {s.attempts[p].task.id}, cancelled, r)
  {
  }

  lemma NodeEndsUntracked(node: string, cancels: map<string, nat>, cancelled: set<nat>, s: System, r: System, p: nat)
    requires NodeMatches(node, cancels, cancelled, s) && p in s.attempts && !s.attempts[p].tracked && Ended(s, r, p)
    ensures NodeMatches(node, cancels, cancelled, r)
  {
  }
}
