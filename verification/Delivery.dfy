/** What a worker and the reclaim loop can rely on in every reachable state: dequeue order by priority,
    and no inflight copy that the reclaim loop cannot bring back. */
module Delivery {
  import opened Entities
  import opened SortedSets
  import opened Keys
  import opened Queues
  import opened Protocol
  import opened Shape

  lemma ReachableShape(s: System, name: string)
    requires Reachable(s)
    ensures QueueOk(s.history.created, name, Get(s.redis, name))
  {
    hide Exec, WellShaped, QueueOk;
    var es :| Exec(Anything, es) == Some(s);
    Always(Anything, es);
    QueueIs(s, name);
  }

  /** Whoever wrote the ready set, a dequeue returns a copy of the highest priority in its queue. */
  lemma HighestPriorityFirst(s: System, e: Event)
    requires Reachable(s) && e.Fetch? && Enabled(s, e)
    ensures e.t in Get(s.redis, e.name).ready && e.t.queue == e.name
    ensures forall t | t in Get(s.redis, e.name).ready :: t.priority <= e.t.priority
  {
    hide Reachable, Good;
    ReachableShape(s, e.name);
  }

  /** An inflight copy is under its own id, in the hash of its own queue and with a lease beside it if
      and only if its queue name agrees with the derived keys. */
  lemma InflightHasLease(s: System, name: string, id: string)
    requires Reachable(s) && id in Get(s.redis, name).inflight
    ensures
      var q := Get(s.redis, name);
      var t := q.inflight[id];
      t.id == id && (t.queue == name <==> Agrees(t.queue)) && (id in q.lease <==> Agrees(t.queue))
  {
    hide Reachable, InflightName, LeaseName, Agrees, Exec, WellShaped;
    ReachableShape(s, name);
    var q := Get(s.redis, name);
    assert InflightOk(s.history.created, name, q, id);
    NamesApart(q.inflight[id].queue);
    assert id in q.lease ==> LeaseOk(s.history.created, name, id);
  }

  /** During reclaim calls at one clock an inflight copy either keeps its lease or is back in ready. */
  lemma {:induction false} ReclaimFollows(qs: seq<Queue>, now: int, batch: int, id: string)
    requires ReclaimCalls(qs, now, batch) && id in qs[0].inflight && id in qs[0].lease
    ensures
      var last := qs[|qs| - 1];
      || (id in last.inflight && last.inflight[id] == qs[0].inflight[id]
          && id in last.lease && last.lease[id] == qs[0].lease[id])
      || (id !in last.inflight && id !in last.lease && qs[0].inflight[id] in last.ready)
  {
    if |qs| > 1 {
      var last := |qs| - 1;
      ReclaimFollows(qs[..last], now, batch, id);
      assert ReclaimCall(qs[last - 1], qs[last], now, batch);
      var ids :| IsRange(qs[last - 1].lease, now, batch, ids) && qs[last] == Reclaimed(qs[last - 1], Elements(ids));
      ReclaimKeepsCopies(qs[last - 1], Elements(ids));
      if id in qs[last - 1].inflight && id in ids {
        assert qs[last - 1].inflight[id] in Stranded(qs[last - 1], Elements(ids));
      }
    }
  }

  /** Once the clock has reached the lease of an inflight copy of an agreeing queue, ceil(n / batch) reclaim calls,
      for n expired leases, put that very copy back into ready. */
  lemma InflightComesBack(s: System, name: string, id: string, qs: seq<Queue>, now: int, batch: nat)
    requires Reachable(s) && id in Get(s.redis, name).inflight && Agrees(Get(s.redis, name).inflight[id].queue)
    requires id in Get(s.redis, name).lease ==> Get(s.redis, name).lease[id] <= now
    requires batch > 0 && ReclaimCalls(qs, now, batch) && qs[0] == Get(s.redis, name)
    requires |qs| - 1 >= (|Due(qs[0].lease, now)| + batch - 1) / batch
    ensures
      var last := qs[|qs| - 1];
      id !in last.inflight && id !in last.lease && qs[0].inflight[id] in last.ready
  {
    hide Reachable, Agrees;
    InflightHasLease(s, name, id);
    ReclaimFollows(qs, now, batch, id);
    ReclaimDrains(qs, now, batch);
    assert id !in Due(qs[|qs| - 1].lease, now);
  }
}
