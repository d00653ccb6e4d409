/** Submission-time routing check: the cached queue-to-types index, its refresh, and what Validate
    accepts over any sequence of calls. */
module Routes {
  import opened Entities

  datatype WorkerState = Online | Draining | Offline

  datatype WorkerInfo = WorkerInfo(id: string, state: WorkerState, queues: seq<string>, taskTypes: seq<string>)

  /** Some online worker lists the queue. */
  predicate Consumed(ws: seq<WorkerInfo>, queue: string) {
    exists w | w in ws :: w.state.Online? && queue in w.queues
  }

  /** Some online worker lists both the queue and the type. */
  predicate Served(ws: seq<WorkerInfo>, queue: string, taskType: string) {
    exists w | w in ws :: w.state.Online? && queue in w.queues && taskType in w.taskTypes
  }

  /** No online worker lists any queue. */
  predicate Idle(ws: seq<WorkerInfo>) {
    forall w | w in ws :: w.state.Online? ==> w.queues == []
  }

  type Index = map<string, set<string>>

  predicate Has(index: Index, queue: string, taskType: string) {
    queue in index && taskType in index[queue]
  }

  /** `index` answers every lookup as a search through the worker list would. */
  ghost predicate Indexes(index: Index, ws: seq<WorkerInfo>) {
    && (forall q :: q in index <==> Consumed(ws, q))
    && (forall q, t :: Has(index, q, t) <==> Served(ws, q, t))
  }

  /** An empty index and an idle worker list are the same thing. */
  lemma EmptyIffIdle(index: Index, ws: seq<WorkerInfo>)
    requires Indexes(index, ws)
    ensures |index| == 0 <==> Idle(ws)
  {
    if Idle(ws) {
      forall q ensures q !in index {
        assert !Consumed(ws, q);
      }
      assert index.Keys == {};
    } else {
      var w :| w in ws && w.state.Online? && w.queues != [];
      assert w.queues[0] in w.queues;
      assert Consumed(ws, w.queues[0]);
    }
  }

  // ----- refresh -----

  /** One online worker with one of its queues, over all of its types. */
  method AddTypes(index: Index, queue: string, types: seq<string>) returns (r: Index)
    ensures forall q :: q in r <==> q in index || q == queue
    ensures forall q, t :: Has(r, q, t) <==> Has(index, q, t) || (q == queue && t in types)
  {
    r := index;
    if queue !in r {
      r := r[queue := {}];
    }
    for i := 0 to |types|
      invariant forall q :: q in r <==> q in index || q == queue
      invariant forall q, t :: Has(r, q, t) <==> Has(index, q, t) || (q == queue && t in types[..i])
    {
      ghost var before := r;
      r := r[queue := r[queue] + {types[i]}];
      assert types[..i + 1] == types[..i] + [types[i]];
      forall q, t ensures Has(r, q, t) <==> Has(before, q, t) || (q == queue && t == types[i]) {
        assert q == queue ==> r[q] == before[q] + {types[i]};
      }
    }
    assert types[..|types|] == types;
  }

  /** Every queue of one online worker. */
  method AddWorker(index: Index, w: WorkerInfo) returns (r: Index)
    ensures forall q :: q in r <==> q in index || q in w.queues
    ensures forall q, t :: Has(r, q, t) <==> Has(index, q, t) || (q in w.queues && t in w.taskTypes)
  {
    r := index;
    for i := 0 to |w.queues|
      invariant forall q :: q in r <==> q in index || q in w.queues[..i]
      invariant forall q, t :: Has(r, q, t) <==> Has(index, q, t) || (q in w.queues[..i] && t in w.taskTypes)
    {
      r := AddTypes(r, w.queues[i], w.taskTypes);
      assert w.queues[..i + 1] == w.queues[..i] + [w.queues[i]];
    }
    assert w.queues[..|w.queues|] == w.queues;
  }

  method BuildIndex(workers: seq<WorkerInfo>) returns (index: Index)
    ensures Indexes(index, workers)
  {
    index := map[];
    for i := 0 to |workers|
      invariant Indexes(index, workers[..i])
    {
      var w := workers[i];
      ghost var before := index;
      if w.state.Online? {
        index := AddWorker(index, w);
      }
      OneMoreWorker(before, index, workers[..i], w);
      assert workers[..i + 1] == workers[..i] + [w];
    }
    assert workers[..|workers|] == workers;
  }

  lemma OneMoreWorker(before: Index, after: Index, ws: seq<WorkerInfo>, w: WorkerInfo)
    requires Indexes(before, ws)
    requires !w.state.Online? ==> after == before
    requires w.state.Online? ==> forall q :: q in after <==> q in before || q in w.queues
    requires w.state.Online? ==>
               forall q, t :: Has(after, q, t) <==> Has(before, q, t) || (q in w.queues && t in w.taskTypes)
    ensures Indexes(after, ws + [w])
  {
  }

  // ----- the validator -----

  datatype Answer = Accepted | NoWorkerOnQueue | TypeNotHandled

  /** What a search through the worker list answers. */
  function BruteForce(ws: seq<WorkerInfo>, queue: string, taskType: string): Answer {
    if Idle(ws) || Served(ws, queue, taskType) then Accepted
    else if Consumed(ws, queue) then TypeNotHandled
    else NoWorkerOnQueue
  }

  /** One call: its clock, the clock after a refresh and what the registry would answer. */
  datatype Query = Query(queue: string, taskType: string, now: int, refreshedAt: int, listed: Option<seq<WorkerInfo>>)

  /** The last worker list that a refresh got, and when; None before the first one. */
  type Snapshot = Option<(seq<WorkerInfo>, int)>

  predicate Stale(snapshot: Snapshot, every: int, now: int) {
    snapshot.None? || now - snapshot.value.1 > every
  }

  function Next(snapshot: Snapshot, every: int, q: Query): Snapshot {
    if Stale(snapshot, every, q.now) && q.listed.Some? then Some((q.listed.value, q.refreshedAt)) else snapshot
  }

  /** The last good snapshot after a sequence of calls. */
  function LastGood(every: int, calls: seq<Query>): Snapshot {
    if calls == [] then None
    else Next(LastGood(every, calls[..|calls| - 1]), every, calls[|calls| - 1])
  }

  predicate FailsOpen(snapshot: Snapshot, every: int, q: Query) {
    Stale(snapshot, every, q.now) && q.listed.None?
  }

  class RouteValidator {
    const refreshEvery: int
    var queueTypes: Index
    var lastRefresh: Option<int>
    ghost var calls: seq<Query>

    /** The cache is the index of the last good snapshot of the calls so far. */
    ghost predicate Valid()
      reads this
    {
      match LastGood(refreshEvery, calls)
      case None => lastRefresh == None && queueTypes == map[]
      case Some(snapshot) => lastRefresh == Some(snapshot.1) && Indexes(queueTypes, snapshot.0)
    }

    constructor (refreshEvery: int)
      ensures Valid() && calls == [] && this.refreshEvery == refreshEvery
    {
      this.refreshEvery := refreshEvery;
      queueTypes, lastRefresh, calls := map[], None, [];
    }

    method Refresh(listed: Option<seq<WorkerInfo>>, now: int) returns (ok: bool)
      modifies this`queueTypes, this`lastRefresh
      ensures ok <==> listed.Some?
      ensures ok ==> Indexes(queueTypes, listed.value) && lastRefresh == Some(now)
      ensures !ok ==> queueTypes == old(queueTypes) && lastRefresh == old(lastRefresh)
    {
      if listed.None? {
        return false;
      }
      var index := BuildIndex(listed.value);
      queueTypes, lastRefresh := index, Some(now);
      return true;
    }

    /** After any sequence of calls: accepted if a needed refresh failed, else exactly what a search
        through the last good worker list answers. */
    method Validate(q: Query) returns (answer: Answer)
      requires Valid()
      modifies this
      ensures Valid() && calls == old(calls) + [q]
      ensures
        var before := LastGood(refreshEvery, old(calls));
        if FailsOpen(before, refreshEvery, q) then answer == Accepted
        else
          var last := Next(before, refreshEvery, q);
          && last.Some? && answer == BruteForce(last.value.0, q.queue, q.taskType)
          && (Stale(before, refreshEvery, q.now) ==> last == Some((q.listed.value, q.refreshedAt)))
          && (!Stale(before, refreshEvery, q.now) ==> last == before && q.now - last.value.1 <= refreshEvery)
      ensures
        var before := LastGood(refreshEvery, old(calls));
        before.Some? && q.now - before.value.1 <= refreshEvery ==>
          answer == BruteForce(before.value.0, q.queue, q.taskType)
    {
      ghost var before := LastGood(refreshEvery, calls);
      calls := calls + [q];
      assert calls[..|calls| - 1] == old(calls);
      var stale := lastRefresh.None? || q.now - lastRefresh.value > refreshEvery;
      if stale {
        var ok := Refresh(q.listed, q.refreshedAt);
        if !ok {
          return Accepted;
        }
      }
      ghost var snapshot := LastGood(refreshEvery, calls).value.0;
      EmptyIffIdle(queueTypes, snapshot);
      if |queueTypes| == 0 {
        return Accepted;
      }
      if q.queue !in queueTypes {
        assert !Has(queueTypes, q.queue, q.taskType);
        return NoWorkerOnQueue;
      }
      var types := queueTypes[q.queue];
      assert q.taskType in types <==> Has(queueTypes, q.queue, q.taskType);
      if q.taskType !in types {
        return TypeNotHandled;
      }
      return Accepted;
    }
  }
}
