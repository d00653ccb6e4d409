/** The scheduler's promote, reclaim, compensation and cleanup loops over the stores, with everybody else at work
    between any two calls, as stretches of a run of the delivery protocol; and the list of queues they visit. */
module SchedulerLoops {
  import opened Entities
  import opened SortedSets
  import opened Queues
  import opened TaskTable
  import opened Broker
  import opened Protocol
  import opened Effects
  import opened Selections
  import opened Interference
  import Routes
  import opened TaskService

  /** The queues that the known workers list. */
  function Listed(workers: map<string, Routes.WorkerInfo>): set<string> {
    set id, q | id in workers && q in workers[id].queues :: q
  }

  /** The loops visit a queue: some known worker lists it, or none lists any and it is the default queue. */
  ghost predicate Visited(workers: map<string, Routes.WorkerInfo>, q: string) {
    || (exists id :: id in workers && q in workers[id].queues)
    || ((forall id | id in workers :: workers[id].queues == []) && q == DEFAULT_QUEUE)
  }

  const PROMOTE_BATCH := 100

  /** Every visited queue once, in any order. */
  method QueueNames(workers: map<string, Routes.WorkerInfo>) returns (names: seq<string>)
    ensures Distinct(names) && names != []
    ensures forall q :: q in names <==> Visited(workers, q)
  {
    var queueSet := CollectQueues(workers);
    if queueSet == {} {
      NoneListed(workers);
      return [DEFAULT_QUEUE];
    }
    names := AsList(queueSet);
    SomeListed(workers);
    assert forall q :: q in names <==> q in Elements(names);
  }

  lemma NoneListed(workers: map<string, Routes.WorkerInfo>)
    requires Listed(workers) == {}
    ensures forall q :: Visited(workers, q) <==> q == DEFAULT_QUEUE
  {
    forall id | id in workers ensures workers[id].queues == [] {
      ListsOrNot(workers, id);
    }
  }

  lemma ListsOrNot(workers: map<string, Routes.WorkerInfo>, id: string)
    requires id in workers
    ensures workers[id].queues == [] || Listed(workers) != {}
  {
    if workers[id].queues != [] {
      var q := workers[id].queues[0];
      assert q in workers[id].queues;
      assert q in Listed(workers);
    }
  }

  lemma SomeListed(workers: map<string, Routes.WorkerInfo>)
    requires Listed(workers) != {}
    ensures forall q :: Visited(workers, q) <==> q in Listed(workers)
  {
    var some :| some in Listed(workers);
    var id :| id in workers && some in workers[id].queues;
    assert workers[id].queues != [];
  }

  method CollectQueues(workers: map<string, Routes.WorkerInfo>) returns (queueSet: set<string>)
    ensures queueSet == Listed(workers)
  {
    queueSet := {};
    var unseen := workers.Keys;
    while unseen != {}
      invariant unseen <= workers.Keys
      invariant queueSet == Listed(map id | id in workers && id !in unseen :: workers[id])
      decreases |unseen|
    {
      var id :| id in unseen;
      OneWorkerMore(workers, unseen, id);
      queueSet := AddQueues(queueSet, workers[id].queues);
      unseen := unseen - {id};
    }
    assert (map id | id in workers && id !in unseen :: workers[id]) == workers;
  }

  method AddQueues(start: set<string>, queues: seq<string>) returns (queueSet: set<string>)
    ensures queueSet == start + set q | q in queues
  {
    queueSet := start;
    for i := 0 to |queues|
      invariant queueSet == start + set q | q in queues[..i]
    {
      queueSet := queueSet + {queues[i]};
    }
    assert queues[..|queues|] == queues;
  }

  method AsList(queueSet: set<string>) returns (names: seq<string>)
    ensures Distinct(names) && Elements(names) == queueSet
  {
    names := [];
    var left := queueSet;
    while left != {}
      invariant Distinct(names) && left == queueSet - Elements(names) && Elements(names) <= queueSet
      decreases |left|
    {
      var q :| q in left;
      OneNameMore(names, q);
      names, left := names + [q], left - {q};
    }
  }

  lemma OneNameMore(names: seq<string>, q: string)
    requires Distinct(names) && q !in Elements(names)
    ensures Distinct(names + [q]) && Elements(names + [q]) == Elements(names) + {q}
  {
  }

  lemma OneWorkerMore(workers: map<string, Routes.WorkerInfo>, unseen: set<string>, id: string)
    requires id in unseen && unseen <= workers.Keys
    ensures Listed(map x | x in workers && x !in unseen - {id} :: workers[x])
            == Listed(map x | x in workers && x !in unseen :: workers[x]) + set q | q in workers[id].queues
  {
    var less, more := map x | x in workers && x !in unseen :: workers[x],
                      map x | x in workers && x !in unseen - {id} :: workers[x];
    forall q | q in Listed(more) ensures q in Listed(less) + set q | q in workers[id].queues {
      var x :| x in more && q in more[x].queues;
      if x != id {
        assert x in less && q in less[x].queues;
      }
    }
    forall q | q in Listed(less) ensures q in Listed(more) {
      var x :| x in less && q in less[x].queues;
      assert x in more && q in more[x].queues;
    }
    forall q | q in workers[id].queues ensures q in Listed(more) {
      assert id in more && q in more[id].queues;
    }
  }

  /** One call of a loop: its clock, and whether it was lost. */
  datatype Visit = Visit(now: int, lost: bool)

  /** What became of a queue in one call of the loop. */
  datatype Change = Change(name: string, before: Queue, after: Queue)

  /** A batch of 0 or less means the default. */
  function BatchOf(batchSize: int): int {
    if batchSize <= 0 then DEFAULT_RECLAIM_BATCH else batchSize
  }

  /** The copies that the calls took out of inflight. */
  function Shrinkage(changes: seq<Change>): int {
    if changes == [] then 0
    else
      var c := changes[|changes| - 1];
      Shrinkage(changes[..|changes| - 1]) + |c.before.inflight| - |c.after.inflight|
  }

  /** The queues whose call was not lost, in order. */
  function Reached(names: seq<string>, visits: string -> Visit): seq<string> {
    if names == [] then []
    else
      var last := names[|names| - 1];
      Reached(names[..|names| - 1], visits) + if visits(last).lost then [] else [last]
  }

  lemma {:induction false} ReachedIs(names: seq<string>, visits: string -> Visit)
    requires Distinct(names)
    ensures Distinct(Reached(names, visits))
    ensures forall q :: q in Reached(names, visits) <==> q in names && !visits(q).lost
  {
    if names != [] {
      var init := names[..|names| - 1];
      ReachedIs(init, visits);
      assert names == init + [names[|names| - 1]];
    }
  }

  function NamesOf(changes: seq<Change>): seq<string> {
    seq(|changes|, i requires 0 <= i < |changes| => changes[i].name)
  }

  /** How many of the tasks were not inflight in the states in which the loop handed them over. */
  function Free(seen: seq<map<string, Queue>>, tasks: seq<Task>): nat
    requires |seen| <= |tasks|
  {
    if seen == [] then 0
    else
      var n := |seen| - 1;
      Free(seen[..n], tasks[..n]) + if tasks[n].id in Get(seen[n], tasks[n].queue).inflight then 0 else 1
  }

  lemma FreeMore(seen: seq<map<string, Queue>>, tasks: seq<Task>, queues: map<string, Queue>)
    requires |seen| < |tasks|
    ensures Free(seen + [queues], tasks)
            == Free(seen, tasks) + if tasks[|seen|].id in Get(queues, tasks[|seen|].queue).inflight then 0 else 1
  {
    assert (seen + [queues])[..|seen|] == seen;
    FreePrefix(seen, tasks, |seen|);
  }

  lemma {:induction false} FreePrefix(seen: seq<map<string, Queue>>, tasks: seq<Task>, n: nat)
    requires |seen| <= n <= |tasks|
    ensures Free(seen, tasks[..n]) == Free(seen, tasks)
  {
    if seen != [] {
      var m := |seen| - 1;
      assert tasks[..n][..m] == tasks[..m];
    }
  }

  /** The reads of one query. */
  function Scans(tasks: seq<Task>, now: int, olderThan: int): seq<Event> {
    seq(|tasks|, i requires 0 <= i < |tasks| => Scan(tasks[i], now, olderThan))
  }

  /** The calls for the tasks handed over so far: each is enqueued if it is not inflight, and then touched. */
  function CompensationSteps(seen: seq<map<string, Queue>>, tasks: seq<Task>, now: int, touchLost: bool): seq<Event>
    requires |seen| <= |tasks|
  {
    if seen == [] then []
    else
      var n := |seen| - 1;
      var enqueued := tasks[n].id !in Get(seen[n], tasks[n].queue).inflight;
      CompensationSteps(seen[..n], tasks, now, touchLost) + [Compensate(tasks[n])]
      + if enqueued && !touchLost then [Touch(tasks[n].id, now)] else []
  }

  lemma StepsMore(
    seen: seq<map<string, Queue>>, tasks: seq<Task>, now: int, touchLost: bool, queues: map<string, Queue>)
    requires |seen| < |tasks|
    ensures
      var t := tasks[|seen|];
      CompensationSteps(seen + [queues], tasks, now, touchLost)
      == CompensationSteps(seen, tasks, now, touchLost) + [Compensate(t)]
         + if t.id !in Get(queues, t.queue).inflight && !touchLost then [Touch(t.id, now)] else []
  {
    assert (seen + [queues])[..|seen|] == seen;
  }

  class SchedulerService {
    const broker: QueueBroker
    const store: TaskRepository

    constructor (broker: QueueBroker, store: TaskRepository)
      ensures this.broker == broker && this.store == store
    {
      this.broker, this.store := broker, store;
    }

    /** The stores are as in a reachable state of the protocol. */
    ghost predicate Matches(s: System)
      reads broker, store
    {
      Reachable(s) && s.redis == broker.queues && s.rows == store.rows && s.touched == store.touched
    }

    /** Everybody else: any stretch of a run. Nothing here says what they do, so callers are right whatever
        it is. */
    method Others(ghost s: System) returns (ghost es: seq<Event>, ghost r: System)
      requires Matches(s)
      modifies broker, store
      ensures Run(s, es) == Some(r) && Matches(r)
    {
      es, r := [], s;
      RunEmpty(s);
    }

    /** One call per visited queue, lost calls skipped. The total is exactly the number of copies that the calls
        took out of inflight. */
    method ReclaimInflightTasks(
      workers: map<string, Routes.WorkerInfo>, batchSize: int, visits: string -> Visit, ghost s: System)
      returns (total: int, ghost changes: seq<Change>, ghost es: seq<Event>, ghost r: System)
      requires Matches(s)
      modifies broker, store
      ensures Run(s, es) == Some(r) && Matches(r)
      ensures total == Shrinkage(changes) && Distinct(NamesOf(changes))
      ensures forall q :: q in NamesOf(changes) <==> Visited(workers, q) && !visits(q).lost
      ensures forall c | c in changes :: ReclaimCall(c.before, c.after, visits(c.name).now, BatchOf(batchSize))
    {
      hide Run, Reachable, IsRange, Reclaimed, Visited, ReclaimCall;
      RunEmpty(s);
      es, r, total, changes := [], s, 0, [];
      var names := QueueNames(workers);
      for i := 0 to |names|
        invariant Run(s, es) == Some(r) && Matches(r)
        invariant total == Shrinkage(changes) && NamesOf(changes) == Reached(names[..i], visits)
        invariant forall c | c in changes :: ReclaimCall(c.before, c.after, visits(c.name).now, BatchOf(batchSize))
      {
        ghost var fs, mid := Others(r);
        es := Join(s, es, r, fs, mid);
        r := mid;
        assert names[..i + 1][..i] == names[..i];
        var visit := visits(names[i]);
        if !visit.lost {
          var n;
          ghost var ids;
          n, ids := broker.ReclaimInflight(names[i], batchSize, visit.now);
          total := total + n;
          ghost var batch := BatchOf(batchSize);
          fs, r := ReclaimRun(mid, names[i], visit.now, batch, ids);
          es := Join(s, es, mid, fs, r);
          ghost var c := Change(names[i], Get(mid.redis, names[i]), Get(r.redis, names[i]));
          OneCallMore(changes, c);
          changes := changes + [c];
        }
      }
      assert names[..|names|] == names;
      ReachedIs(names, visits);
    }

    /** The promote pass, in batches of 100. */
    method PromoteDelayedTasks(workers: map<string, Routes.WorkerInfo>, visits: string -> Visit, ghost s: System)
      returns (ghost changes: seq<Change>, ghost es: seq<Event>, ghost r: System)
      requires Matches(s)
      modifies broker, store
      ensures Run(s, es) == Some(r) && Matches(r) && Distinct(NamesOf(changes))
      ensures forall q :: q in NamesOf(changes) <==> Visited(workers, q) && !visits(q).lost
      ensures forall c | c in changes :: PromoteCall(c.before, c.after, visits(c.name).now, 100)
    {
      hide Run, Reachable, IsRange, Promoted, Visited, PromoteCall;
      RunEmpty(s);
      es, r, changes := [], s, [];
      var names := QueueNames(workers);
      for i := 0 to |names|
        invariant Run(s, es) == Some(r) && Matches(r) && NamesOf(changes) == Reached(names[..i], visits)
        invariant forall c | c in changes :: PromoteCall(c.before, c.after, visits(c.name).now, PROMOTE_BATCH)
      {
        ghost var fs, mid := Others(r);
        es := Join(s, es, r, fs, mid);
        r := mid;
        assert names[..i + 1][..i] == names[..i];
        var visit := visits(names[i]);
        if !visit.lost {
          var n;
          ghost var ts;
          n, ts := broker.PromoteDelayed(names[i], PROMOTE_BATCH, visit.now);
          fs, r := PromoteRun(mid, names[i], visit.now, PROMOTE_BATCH, ts);
          es := Join(s, es, mid, fs, r);
          ghost var c := Change(names[i], Get(mid.redis, names[i]), Get(r.redis, names[i]));
          OneCallMore(changes, c);
          changes := changes + [c];
        }
      }
      assert names[..|names|] == names;
      ReachedIs(names, visits);
    }

    /** The cleanup pass: at most `limit` terminal rows of those with an old finished_at. */
    method CleanupTerminalTasks(expired: set<string>, limit: nat, ghost s: System)
      returns (deleted: nat, ghost gone: set<string>, ghost r: System)
      requires Matches(s)
      modifies store
      ensures Run(s, [Cleanup(gone)]) == Some(r) && Matches(r)
      ensures gone <= expired && deleted == |gone| == Min(limit, |Expired(s.rows, expired)|)
    {
      hide Run, Reachable;
      deleted, gone := store.DeleteTerminal(expired, limit);
      r := CleanupRun(s, gone);
    }

    /** One stale row: it is enqueued if its id is not inflight by then, and touched if it was enqueued. */
    method CompensateOne(t: Task, now: int, touchLost: bool, ghost s: System)
      returns (
        enqueued: bool, ghost queues: map<string, Queue>, ghost own: seq<Event>, ghost es: seq<Event>,
        ghost r: System)
      requires Matches(s) && t in s.snapshots
      modifies broker, store
      ensures Run(s, es) == Some(r) && Matches(r) && s.snapshots <= r.snapshots
      ensures enqueued <==> t.id !in Get(queues, t.queue).inflight
      ensures own == [Compensate(t)] + if enqueued && !touchLost then [Touch(t.id, now)] else []
      ensures Within(own, es)
    {
      hide Run, Reachable, Compensated, Within;
      ghost var fs, mid := Others(s);
      OthersKeepSnapshots(s, fs, mid);
      es, queues := fs, mid.redis;
      enqueued := broker.EnqueueIfNotInflight(t.queue, t);
      fs, r := CompensateRun(mid, t);
      own := fs;
      WithinNothing(es);
      WithinConcat([], es, fs);
      assert [] + fs == fs;
      es := Join(s, es, mid, fs, r);
      if enqueued {
        fs, mid := Others(r);
        OthersKeepSnapshots(r, fs, mid);
        WithinMore(own, es, fs);
        es := Join(s, es, r, fs, mid);
        r := mid;
        if !touchLost {
          store.TouchUpdatedAt(t.id, now);
          fs, r := TouchRun(mid, t.id, now);
          WithinConcat(own, es, fs);
          own := own + fs;
          es := Join(s, es, mid, fs, r);
        }
      }
    }

    /** Re-enqueues the stale pending rows, oldest first, whose id is not inflight by then, and touches them;
        stops when the queue store fails. */
    method CompensateOrphanedTasks(now: int, olderThan: int, limit: int, failsAt: nat, touchLost: bool, ghost s: System)
      returns (compensated: nat, ok: bool, ghost tasks: seq<Task>, ghost seen: seq<map<string, Queue>>,
               ghost es: seq<Event>, ghost r: System)
      requires Matches(s)
      modifies broker, store
      ensures Run(s, es) == Some(r) && Matches(r)
      ensures IsRange(PendingSince(old(store.rows), old(store.touched)), now - olderThan - 1, limit, Ids(tasks))
      ensures ok <==> |tasks| <= failsAt
      ensures |seen| == Min(failsAt, |tasks|) && compensated == Free(seen, tasks)
      ensures Within(Scans(tasks, now, olderThan) + CompensationSteps(seen, tasks, now, touchLost), es)
    {
      hide Run, Reachable, Compensated, IsRange, PendingSince, Within, CompensationSteps, Scans, Free;
      RowsKeyed(s);
      var found := store.FindStale(now, olderThan, limit);
      es, r := ScanRun(s, found, now, olderThan);
      tasks, seen, compensated, ok := found, [], 0, true;
      ghost var own := es;
      NothingYet(found, now, touchLost);
      WithinSelf(es);
      for i := 0 to |found|
        invariant i <= failsAt && ok && |seen| == i && tasks == found
        invariant Run(s, es) == Some(r) && Matches(r) && forall t | t in found :: t in r.snapshots
        invariant compensated == Free(seen, tasks)
        invariant own == Scans(tasks, now, olderThan) + CompensationSteps(seen, tasks, now, touchLost)
        invariant Within(own, es)
      {
        if i == failsAt {
          return compensated, false, tasks, seen, es, r;
        }
        var enqueued;
        ghost var queues, steps, fs, after;
        enqueued, queues, steps, fs, after := CompensateOne(found[i], now, touchLost, r);
        FreeMore(seen, tasks, queues);
        StepsMore(seen, tasks, now, touchLost, queues);
        seen := seen + [queues];
        WithinBoth(own, es, steps, fs);
        own := own + steps;
        es := Join(s, es, r, fs, after);
        r := after;
        if enqueued {
          compensated := compensated + 1;
        }
      }
    }
  }

  lemma WithinNothing(es: seq<Event>)
    ensures Within([], es)
  {
  }

  lemma NothingYet(tasks: seq<Task>, now: int, touchLost: bool)
    ensures CompensationSteps([], tasks, now, touchLost) == [] && Free([], tasks) == 0
  {
  }

  lemma WithinSelf(es: seq<Event>)
    ensures Within(es, es)
  {
    WithinConcat([], [], es);
    assert [] + es == es;
  }

  // ----- the matching stretches of the protocol -----

  lemma RowsKeyed(s: System)
    requires Reachable(s)
    ensures forall id | id in s.rows :: s.rows[id].id == id
  {
    hide Reachable;
    forall id | id in s.rows ensures s.rows[id].id == id {
      RowKeyed(s, id);
    }
  }

  /** One call more at the end of a pass. */
  lemma OneCallMore(changes: seq<Change>, c: Change)
    ensures NamesOf(changes + [c]) == NamesOf(changes) + [c.name]
    ensures Shrinkage(changes + [c]) == Shrinkage(changes) + |c.before.inflight| - |c.after.inflight|
  {
    assert (changes + [c])[..|changes|] == changes;
  }

  lemma PromoteRun(s: System, name: string, now: int, batch: int, ts: seq<Task>) returns (es: seq<Event>, r: System)
    requires Reachable(s) && IsRange(Get(s.redis, name).delayed, now, batch, ts)
    ensures Run(s, es) == Some(r) && Reachable(r) && r.rows == s.rows && r.touched == s.touched
    ensures r.redis == s.redis[name := Promoted(Get(s.redis, name), Elements(ts))]
    ensures PromoteCall(Get(s.redis, name), Get(r.redis, name), now, batch)
  {
    hide Run, Enabled, Apply, Reachable, IsRange, Promoted;
    RunEmpty(s);
    AtPromote(s, name, now, batch, ts);
    es, r := Go(s, [], s, Promote(name, now, batch, ts));
    StaysReachable(s, es, r);
  }

  lemma CleanupRun(s: System, gone: set<string>) returns (r: System)
    requires Reachable(s) && gone <= s.rows.Keys && forall id | id in gone :: s.rows[id].IsTerminal()
    ensures Run(s, [Cleanup(gone)]) == Some(r) && Reachable(r)
    ensures r.redis == s.redis && r.rows == s.rows - gone && r.touched == s.touched
  {
    hide Run, Enabled, Apply, Reachable;
    RunEmpty(s);
    AtCleanup(s, gone);
    var es;
    es, r := Go(s, [], s, Cleanup(gone));
    assert es == [Cleanup(gone)];
    StaysReachable(s, es, r);
  }

  lemma ReclaimRun(s: System, name: string, now: int, batch: int, ids: seq<string>) returns (es: seq<Event>, r: System)
    requires Reachable(s) && IsRange(Get(s.redis, name).lease, now, batch, ids)
    ensures Run(s, es) == Some(r) && Reachable(r) && r.rows == s.rows && r.touched == s.touched
    ensures r.redis == s.redis[name := Reclaimed(Get(s.redis, name), Elements(ids))]
    ensures ReclaimCall(Get(s.redis, name), Get(r.redis, name), now, batch)
  {
    hide Run, Enabled, Apply, Reachable, IsRange, Reclaimed;
    RunEmpty(s);
    AtReclaim(s, name, now, batch, ids);
    es, r := Go(s, [], s, Reclaim(name, now, batch, ids));
    StaysReachable(s, es, r);
  }

  /** The rows of one query are read at once. */
  lemma {:induction false} ScanRun(s: System, tasks: seq<Task>, now: int, olderThan: int)
    returns (es: seq<Event>, r: System)
    requires Reachable(s) && forall t | t in tasks :: Stale(s, t, now, olderThan)
    ensures es == Scans(tasks, now, olderThan) && Run(s, es) == Some(r) && Reachable(r)
    ensures SameStores(s, r) && forall t | t in tasks :: t in r.snapshots
  {
    hide Run, Enabled, Apply, Reachable;
    if tasks == [] {
      RunEmpty(s);
      es, r := [], s;
    } else {
      var last := tasks[|tasks| - 1];
      assert last in tasks && Stale(s, last, now, olderThan);
      var mid;
      es, mid := ScanRun(s, tasks[..|tasks| - 1], now, olderThan);
      AtScan(mid, last, now, olderThan);
      es, r := Go(s, es, mid, Scan(last, now, olderThan));
      StaysReachable(s, es, r);
    }
  }

  lemma CompensateRun(s: System, t: Task) returns (es: seq<Event>, r: System)
    requires Reachable(s) && t in s.snapshots
    ensures es == [Compensate(t)] && Run(s, es) == Some(r) && Reachable(r) && r.rows == s.rows
    ensures r.touched == s.touched && r.snapshots == s.snapshots
    ensures
      var q := Get(s.redis, t.queue);
      r.redis == if t.id in q.inflight then s.redis else s.redis[t.queue := Compensated(q, t)]
  {
    hide Run, Enabled, Apply, Reachable, Compensated, Get;
    RunEmpty(s);
    AtCompensate(s, t);
    es, r := Go(s, [], s, Compensate(t));
    StaysReachable(s, es, r);
  }

  lemma TouchRun(s: System, id: string, now: int) returns (es: seq<Event>, r: System)
    requires Reachable(s)
    ensures es == [Touch(id, now)] && Run(s, es) == Some(r) && Reachable(r) && r.redis == s.redis
    ensures r.rows == s.rows && r.snapshots == s.snapshots
    ensures r.touched == if id in s.touched then s.touched[id := now] else s.touched
  {
    hide Run, Enabled, Apply, Reachable;
    RunEmpty(s);
    AtTouch(s, id, now);
    es, r := Go(s, [], s, Touch(id, now));
    StaysReachable(s, es, r);
  }
}
