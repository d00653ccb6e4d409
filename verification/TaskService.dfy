/** The API server's submit and cancel, call by call on the stores and with everybody else at work between
    any two calls: each is a stretch of a run of the delivery protocol. */
module TaskService {
  import opened Entities
  import opened Queues
  import opened TaskTable
  import opened Broker
  import opened Protocol
  import opened Shape
  import opened Effects
  import opened Selections
  import opened Interference

  const DEFAULT_QUEUE := "default"
  const PRIORITY_DEFAULT := 5
  const DEFAULT_MAX_RETRIES := 3
  const DEFAULT_TIMEOUT: Duration := 300_000_000_000

  /** The fields that SubmitTask fills in. */
  function Filled(t: Task, freshId: string): Task {
    t.(id := if t.id == "" then freshId else t.id,
       queue := if t.queue == "" then DEFAULT_QUEUE else t.queue,
       priority := if t.priority == 0 then PRIORITY_DEFAULT else t.priority,
       maxRetries := if t.maxRetries == 0 then DEFAULT_MAX_RETRIES else t.maxRetries,
       timeout := if t.timeout == 0 then DEFAULT_TIMEOUT else t.timeout,
       state := Pending)
  }

  /** What the submitter gave is kept, what he left out gets the defaults: a new id, the queue "default", priority
      5, 3 retries, 5 minutes. Every other field stays, and the task is pending. */
  lemma FilledIs(t: Task, freshId: string)
    ensures
      var f := Filled(t, freshId);
      && f.state == Pending
      && f == t.(id := f.id, queue := f.queue, priority := f.priority, maxRetries := f.maxRetries,
                 timeout := f.timeout, state := Pending)
      && (t.id != "" ==> f.id == t.id) && (t.id == "" ==> f.id == freshId)
      && (t.queue != "" ==> f.queue == t.queue) && (t.queue == "" ==> f.queue == "default")
      && (t.priority != 0 ==> f.priority == t.priority) && (t.priority == 0 ==> f.priority == 5)
      && (t.maxRetries != 0 ==> f.maxRetries == t.maxRetries) && (t.maxRetries == 0 ==> f.maxRetries == 3)
      && (t.timeout != 0 ==> f.timeout == t.timeout) && (t.timeout == 0 ==> f.timeout == 300_000_000_000)
    ensures freshId != "" ==> Filled(Filled(t, freshId), "again") == Filled(t, freshId)
  {
  }

  datatype Enqueueing = Now | At(ms: int)

  class TaskServiceImpl {
    const broker: QueueBroker
    const store: TaskRepository

    constructor (broker: QueueBroker, store: TaskRepository)
      ensures this.broker == broker && this.store == store
    {
      this.broker, this.store := broker, store;
    }

    /** The stores are as in a reachable state of the protocol. */
    ghost predicate Matches(s: System)
      reads broker, store
    {
      Reachable(s) && s.redis == broker.queues && s.rows == store.rows && s.touched == store.touched
    }

    /** Everybody else: any stretch of a run without a step of canceller c and without the first enqueue of t.
        Nothing here says what they do, so callers are right whatever it is. */
    method Others(ghost c: nat, ghost t: Task, ghost s: System) returns (ghost es: seq<Event>, ghost r: System)
      requires Matches(s)
      modifies broker, store
      ensures Run(s, es) == Some(r) && Matches(r)
      ensures forall i | 0 <= i < |es| :: !OfCanceller(es[i], c) && !OfSubmitter(es[i], t)
    {
      es, r := [], s;
      RunEmpty(s);
    }

    /** Between two calls of a submitter or canceller. */
    method Between(ghost c: nat, ghost t: Task, ghost s: System) returns (ghost es: seq<Event>, ghost r: System)
      requires Matches(s)
      modifies broker, store
      ensures Run(s, es) == Some(r) && Matches(r) && Keeps(s, r, c, t)
      ensures OwnCancel(es, c) == [] && OwnSubmit(es, t) == []
    {
      es, r := Others(c, t, s);
      SelectNone(es, SubmitterSteps(t));
      SelectNone(es, CancellerSteps(c));
      OthersKeep(s, es, r, c, t);
    }

    /** First the row, then the queue. A lost enqueue is no error: the row stays pending for the
        compensation loop. `admitted` is the answer of the hooks and of the route validator. */
    method SubmitTask(
      task: Task, freshId: string, admitted: bool, createFault: Fault, now: int, when: Enqueueing, enqueueLost: bool,
      ghost s: System)
      returns (ok: bool, ghost es: seq<Event>, ghost r: System)
      requires Matches(s) && task.retryCount == 0 && (task.version == 0 || task.version == 1)
      requires Filled(task, freshId).id in s.history.created ==> Filled(task, freshId).id in s.rows
      modifies broker, store
      ensures Run(s, es) == Some(r) && Matches(r)
      ensures ok <==> admitted && createFault.NoFault? && Filled(task, freshId).id !in old(store.rows)
      ensures var t := Filled(task, freshId).(version := 1);
              var created := admitted && !createFault.LostBefore? && t.id !in old(store.rows);
              && (created ==> es != [] && es[0] == Create(t, now))
              && (!created ==> es == [])
              && OwnSubmit(es, t) == if ok && !enqueueLost then [FirstEnqueue(t, when)] else []
      ensures !ok ==> broker.queues == old(broker.queues)
    {
      hide Run, Reachable, Enqueued, Queues.Delayed, Select;
      RunEmpty(s);
      es, r := [], s;
      var t := Filled(task, freshId);
      SelectNone([], SubmitterSteps(t.(version := 1)));
      if !admitted || createFault.LostBefore? {
        return false, es, r;
      }
      var stored, created := store.Create(t, now);
      if !created {
        return false, es, r;
      }
      es, r := CreateRun(s, stored, now);
      if createFault.LostAfter? {
        return false, es, r;
      }
      ghost var fs, mid := Between(0, stored, r);
      SelectConcat(es, fs, SubmitterSteps(stored));
      es := Join(s, es, r, fs, mid);
      r := mid;
      if !enqueueLost {
        fs, r := EnqueueRun(mid, stored, when);
        SelectConcat(es, fs, SubmitterSteps(stored));
        es := Join(s, es, mid, fs, r);
        if when.At? {
          broker.EnqueueDelayed(stored.queue, stored, Some(when.ms), 0, 0);
        } else {
          var full := broker.EnqueueWithCap(stored.queue, stored, 0);
        }
      }
      ok := true;
    }

    /** First the row, then the queue, then the signal. Whatever can be cancelled is tried; only a refused or
        failed row write is an error, and after a good one both other calls are made. */
    method CancelTask(
      id: string, readable: bool, fault: Fault, removeLost: bool, publishLost: bool, ghost c: nat, ghost s: System)
      returns (ok: bool, ghost es: seq<Event>, ghost r: System)
      requires Matches(s) && c !in s.cancellers
      modifies broker, store
      ensures Run(s, es) == Some(r) && Matches(r) && c !in r.cancellers
      ensures var open := readable && id in old(store.rows) && !old(store.rows)[id].IsTerminal();
              && OwnCancel(es, c) == (if open then CancelSteps(id, c, fault, removeLost, publishLost, ok) else [])
              && (open ==> WritesCancel(s, es, c, old(store.rows)[id].(state := Cancelled), fault, ok))
              && (!open ==> !ok && es == [])
      ensures ok && !publishLost ==> id in r.signals
    {
      hide Run, Reachable, Removed, LockHolds, AfterUpdate, OwnCancel, WritesCancel;
      RunEmpty(s);
      es, r := [], s;
      var found := store.Get(id);
      if !readable || found.None? || found.value.IsTerminal() {
        NoSteps(c);
        return false, es, r;
      }
      es, r := CancelReadRun(s, c, id);
      ghost var fs, mid := Between(c, NoTask, r);
      es := JoinCancel(s, es, r, fs, mid, c);
      var t := found.value.(state := Cancelled);
      ghost var before, writing, read := es, mid, t;
      fs, r := CancelWriteRun(mid, c, fault);
      es := JoinCancel(s, es, mid, fs, r, c);
      t, ok := store.Update(t, fault);
      ghost var tail := [];
      if ok {
        fs := es;
        mid := r;
        tail, r := CancelTail(t, id, removeLost, publishLost, c, r);
        es := JoinCancel(s, fs, mid, tail, r, c);
      }
      assert es == before + [CancelWrite(c, fault)] + tail;
      WritesNow(s, before, writing, c, read, fault, ok, tail);
    }

    /** What follows the committed row: both calls are best effort. */
    method CancelTail(t: Task, id: string, removeLost: bool, publishLost: bool, ghost c: nat, ghost s: System)
      returns (ghost es: seq<Event>, ghost r: System)
      requires Matches(s) && CancelIn(s, c, Removing) && s.cancellers[c].task == t && t.id == id
      modifies broker, store
      ensures Run(s, es) == Some(r) && Matches(r) && c !in r.cancellers && (!publishLost ==> id in r.signals)
      ensures OwnCancel(es, c) == [CancelRemove(c, removeLost), CancelPublish(c, publishLost)]
    {
      hide Run, Reachable, Removed, OwnCancel;
      ghost var fs, mid := Between(c, NoTask, s);
      es := fs;
      fs, r := RemoveRun(mid, c, removeLost);
      es := JoinCancel(s, es, mid, fs, r, c);
      if !removeLost {
        var removed := broker.Remove(t.queue, id);
      }
      fs, mid := Between(c, NoTask, r);
      es := JoinCancel(s, es, r, fs, mid, c);
      fs, r := PublishRun(mid, c, publishLost);
      es := JoinCancel(s, es, mid, fs, r, c);
    }
  }

  /** The calls of a cancel, in order. */
  function CancelSteps(
    id: string, c: nat, fault: Fault, removeLost: bool, publishLost: bool, written: bool): seq<Event>
  {
    [CancelRead(c, id), CancelWrite(c, fault)]
    + if written then [CancelRemove(c, removeLost), CancelPublish(c, publishLost)] else []
  }

  /** The stretch contains the cancel's write of t, and `ok` says whether it succeeded at that moment: the row
      still had the version of t and the call had no fault. */
  ghost predicate WritesCancel(s: System, es: seq<Event>, c: nat, t: Task, fault: Fault, ok: bool) {
    exists mid, fs, gs ::
      && Run(s, fs) == Some(mid) && CancelIn(mid, c, Writing) && mid.cancellers[c].task == t
      && (ok <==> LockHolds(mid.rows, t) && fault.NoFault?)
      && es == fs + [CancelWrite(c, fault)] + gs
  }

  lemma WritesNow(
    s: System, fs: seq<Event>, mid: System, c: nat, t: Task, fault: Fault, ok: bool, gs: seq<Event>)
    requires Run(s, fs) == Some(mid) && CancelIn(mid, c, Writing) && mid.cancellers[c].task == t
    requires ok <==> LockHolds(mid.rows, t) && fault.NoFault?
    ensures WritesCancel(s, fs + [CancelWrite(c, fault)] + gs, c, t, fault, ok)
  {
    hide Run, LockHolds;
  }

  lemma NoSteps(c: nat)
    ensures OwnCancel([], c) == []
  {
  }

  lemma JoinCancel(s: System, es: seq<Event>, mid: System, fs: seq<Event>, r: System, c: nat)
    returns (all: seq<Event>)
    requires Run(s, es) == Some(mid) && Run(mid, fs) == Some(r)
    ensures Run(s, all) == Some(r) && all == es + fs && OwnCancel(all, c) == OwnCancel(es, c) + OwnCancel(fs, c)
  {
    hide Run, Select;
    all := Join(s, es, mid, fs, r);
    SelectConcat(es, fs, CancellerSteps(c));
  }

  function FirstEnqueue(t: Task, when: Enqueueing): Event {
    if when.At? then EnqueueDelayed(t, when.ms) else Enqueue(t)
  }

  // ----- the matching stretches of the protocol -----

  lemma CreateRun(s: System, t: Task, now: int) returns (es: seq<Event>, r: System)
    requires Reachable(s) && t.id !in s.history.created && t.state == Pending && t.retryCount == 0 && t.version == 1
    ensures es == [Create(t, now)] && Run(s, es) == Some(r) && Reachable(r) && t in r.submitting
    ensures OwnSubmit(es, t) == []
    ensures r.redis == s.redis && r.rows == s.rows[t.id := t] && r.touched == s.touched[t.id := now]
  {
    hide Run, Enabled, Apply, Reachable;
    RunEmpty(s);
    SelectNone([Create(t, now)], SubmitterSteps(t));
    AtCreate(s, t, now);
    es, r := Go(s, [], s, Create(t, now));
    StaysReachable(s, es, r);
  }

  lemma EnqueueRun(s: System, t: Task, when: Enqueueing) returns (es: seq<Event>, r: System)
    requires Reachable(s) && t in s.submitting
    ensures es == [FirstEnqueue(t, when)] && OwnSubmit(es, t) == es && Run(s, es) == Some(r) && Reachable(r)
    ensures r.rows == s.rows && r.touched == s.touched
    ensures
      var q := Get(s.redis, t.queue);
      r.redis == s.redis[t.queue := if when.At? then Queues.Delayed(q, t, when.ms) else Enqueued(q, t)]
  {
    hide Run, Enabled, Apply, Reachable, Enqueued, Queues.Delayed;
    RunEmpty(s);
    AtEnqueue(s, t, if when.At? then when.ms else 0);
    SelectOne(FirstEnqueue(t, when), SubmitterSteps(t));
    es, r := Go(s, [], s, FirstEnqueue(t, when));
    StaysReachable(s, es, r);
  }

  lemma CancelReadRun(s: System, c: nat, id: string) returns (es: seq<Event>, r: System)
    requires Reachable(s) && c !in s.cancellers && id in s.rows && !s.rows[id].IsTerminal()
    ensures Run(s, es) == Some(r) && Reachable(r) && SameStores(s, r) && s.rows[id].id == id
    ensures CancelIn(r, c, Writing) && r.cancellers[c].task == s.rows[id].(state := Cancelled)
    ensures OwnCancel(es, c) == [CancelRead(c, id)]
  {
    hide Run, Enabled, Apply, Reachable;
    RunEmpty(s);
    SelectOne(CancelRead(c, id), CancellerSteps(c));
    AtCancelRead(s, c, id);
    es, r := Go(s, [], s, CancelRead(c, id));
    StaysReachable(s, es, r);
    RowKeyed(s, id);
  }

  lemma RowKeyed(s: System, id: string)
    requires Reachable(s) && id in s.rows
    ensures s.rows[id].id == id
  {
    hide Exec, WellShaped;
    var es :| Exec(Anything, es) == Some(s);
    Always(Anything, es);
    RowIs(s, id);
  }

  lemma CancelWriteRun(s: System, c: nat, fault: Fault) returns (es: seq<Event>, r: System)
    requires Reachable(s) && CancelIn(s, c, Writing)
    ensures es == [CancelWrite(c, fault)] && Run(s, es) == Some(r)
    ensures Reachable(r) && r.redis == s.redis && r.touched == s.touched
    ensures
      var t := s.cancellers[c].task;
      && r.rows == AfterUpdate(s.rows, t, fault)
      && (if Succeeds(s.rows, t, fault) then CancelIn(r, c, Removing) && r.cancellers[c].task == Bumped(t)
          else c !in r.cancellers)
    ensures OwnCancel(es, c) == [CancelWrite(c, fault)]
  {
    hide Run, Enabled, Apply, Reachable, AfterUpdate, Succeeds;
    RunEmpty(s);
    SelectOne(CancelWrite(c, fault), CancellerSteps(c));
    AtCancelWrite(s, c, fault);
    es, r := Go(s, [], s, CancelWrite(c, fault));
    StaysReachable(s, es, r);
  }

  lemma RemoveRun(s: System, c: nat, lost: bool) returns (es: seq<Event>, r: System)
    requires Reachable(s) && CancelIn(s, c, Removing)
    ensures Run(s, es) == Some(r) && Reachable(r) && r.rows == s.rows && r.touched == s.touched
    ensures CancelIn(r, c, Publishing) && r.cancellers[c].task == s.cancellers[c].task
    ensures
      var t := s.cancellers[c].task;
      r.redis == if lost then s.redis else s.redis[t.queue := Removed(Get(s.redis, t.queue), t.id)]
    ensures OwnCancel(es, c) == [CancelRemove(c, lost)]
  {
    hide Run, Enabled, Apply, Reachable, Removed;
    RunEmpty(s);
    SelectOne(CancelRemove(c, lost), CancellerSteps(c));
    AtCancelRemove(s, c, lost);
    es, r := Go(s, [], s, CancelRemove(c, lost));
    StaysReachable(s, es, r);
  }

  lemma PublishRun(s: System, c: nat, lost: bool) returns (es: seq<Event>, r: System)
    requires Reachable(s) && CancelIn(s, c, Publishing)
    ensures Run(s, es) == Some(r) && Reachable(r) && SameStores(s, r) && c !in r.cancellers
    ensures !lost ==> s.cancellers[c].task.id in r.signals
    ensures OwnCancel(es, c) == [CancelPublish(c, lost)]
  {
    hide Run, Enabled, Apply, Reachable;
    RunEmpty(s);
    SelectOne(CancelPublish(c, lost), CancellerSteps(c));
    AtCancelPublish(s, c, lost);
    es, r := Go(s, [], s, CancelPublish(c, lost));
    StaysReachable(s, es, r);
  }
}
