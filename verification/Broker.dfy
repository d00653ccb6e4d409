/** The Redis queue broker: every method is one script or pipeline, with its loops, proved to have
    the effect on the stored queues that module Queues states. */
module Broker {
  import opened Entities
  import opened SortedSets
  import opened Keys
  import opened Queues
  import opened Timing

  const DEFAULT_RECLAIM_BATCH := 100

  class QueueBroker {
    var queues: map<string, Queue>

    constructor ()
      ensures queues == map[]
    {
      queues := map[];
    }

    /** ErrQueueFull is reported as `full`; a maximum of 0 or less means no cap. */
    method EnqueueWithCap(name: string, t: Task, maxSize: int) returns (full: bool)
      modifies this
      ensures full <==> maxSize > 0 && |Get(old(queues), name).ready| >= maxSize
      ensures queues == if full then old(queues) else old(queues)[name := Enqueued(Get(old(queues), name), t)]
      ensures var before, after := Get(old(queues), name), Get(queues, name);
              !full ==>
                && after.ready == before.ready[t := -t.priority] && after.stats.enqueued == before.stats.enqueued + 1
                && after.delayed == before.delayed && after.inflight == before.inflight && after.lease == before.lease
    {
      var q := Get(queues, name);
      if maxSize > 0 {
        if |q.ready| >= maxSize {
          return true;
        }
      }
      queues := queues[name := Enqueued(q, t)];
      full := false;
    }

    /** `scheduleAt` is the absolute time, `now + delay` applies without one (ms). */
    method EnqueueDelayed(name: string, t: Task, scheduleAt: Option<int>, now: int, delay: int)
      modifies this
      ensures var at := if scheduleAt.Some? then scheduleAt.value else now + delay;
              queues == old(queues)[name := Delayed(Get(old(queues), name), t, at)]
    {
      var at := now + delay;
      if scheduleAt.Some? {
        at := scheduleAt.value;
      }
      queues := queues[name := Delayed(Get(queues, name), t, at)];
    }

    /** The dequeue script: pop from the first queue of the list that has a ready copy, and record the copy
        and its lease under the keys derived from that queue's ready key. */
    method DequeueScript(names: seq<string>, now: int, visibilityMs: int) returns (found: Option<(nat, Task)>)
      modifies this
      ensures found.None? ==> queues == old(queues) && forall name | name in names :: Get(queues, name).ready == map[]
      ensures found.Some? ==>
                var (i, t) := found.value;
                && i < |names|
                && (forall j | 0 <= j < i :: Get(old(queues), names[j]).ready == map[])
                && IsLeast(Get(old(queues), names[i]).ready, t)
                && queues == Dequeued(old(queues), names[i], t, now + visibilityMs)
    {
      for i := 0 to |names|
        invariant queues == old(queues)
        invariant forall j | 0 <= j < i :: Get(queues, names[j]).ready == map[]
      {
        var q := Get(queues, names[i]);
        if q.ready.Keys != {} {
          var t := LeastOf(q.ready, q.ready.Keys);
          var inflight, lease := InflightName(names[i]), LeaseName(names[i]);
          queues := queues[names[i] := q.(ready := q.ready - {t})];
          var holder := Get(queues, inflight);
          queues := queues[inflight := holder.(inflight := holder.inflight[t.id := t])];
          var leases := Get(queues, lease);
          queues := queues[lease := leases.(lease := leases.lease[t.id := now + visibilityMs])];
          return Some((i, t));
        }
      }
      found := None;
    }

    /** The second call of Dequeue: a longer lease for a task whose own timeout needs it. */
    method ExtendLease(t: Task, now: int)
      modifies this
      ensures queues == old(queues)[t.queue := Leased(Get(old(queues), t.queue), t.id, now + VisibilityMs(t.timeout))]
    {
      var visibility := VisibilityTimeout(t.timeout);
      queues := queues[t.queue := Leased(Get(queues, t.queue), t.id, now + visibility / NS_PER_MS)];
    }

    /** Dequeue: the script, then the lease extension for a task whose own timeout needs more than
        the default. `extensionLost` is a failed second call: the caller gets an error, the copy
        stays inflight under the default lease. */
    method Dequeue(names: seq<string>, now: int, extensionLost: bool) returns (task: Option<Task>, failed: bool)
      modifies this
      ensures task.None? && !failed ==>
                queues == old(queues) && forall name | name in names :: Get(queues, name).ready == map[]
      ensures task.Some? || failed ==>
                exists i, t | 0 <= i < |names| ::
                  && (forall j | 0 <= j < i :: Get(old(queues), names[j]).ready == map[])
                  && IsLeast(Get(old(queues), names[i]).ready, t)
                  && var fetched := Dequeued(old(queues), names[i], t, now + 30_000);
                     var longer := VisibilityTimeout(t.timeout) > DEFAULT_VISIBILITY;
                     && failed == (longer && extensionLost)
                     && (!failed ==> task == Some(t))
                     && queues == if longer && !extensionLost
                                  then fetched[t.queue := Leased(Get(fetched, t.queue), t.id,
                                                                 now + VisibilityMs(t.timeout))]
                                  else fetched
    {
      var found := DequeueScript(names, now, DEFAULT_VISIBILITY / NS_PER_MS);
      if found.None? {
        return None, false;
      }
      var (i, t) := found.value;
      if VisibilityTimeout(t.timeout) > DEFAULT_VISIBILITY {
        if extensionLost {
          return None, true;
        }
        ExtendLease(t, now);
      }
      return Some(t), false;
    }

    /** The three commands of the pipeline. */
    method Ack(name: string, id: string)
      modifies this
      ensures queues == old(queues)[name := Acked(Get(old(queues), name), id)]
    {
      var q := Get(queues, name);
      q := q.(inflight := q.inflight - {id});
      q := q.(lease := q.lease - {id});
      q := q.(stats := q.stats.(completed := q.stats.completed + 1));
      queues := queues[name := q];
    }

    /** `jitter` is the random draw in nanoseconds, `nowNs` the clock the backoff is added to. */
    method Nack(name: string, t: Task, nowNs: int, jitter: int)
      requires JitterFits(t.retryBackoff, jitter)
      modifies this
      ensures var at := RetryTime(t.retryBackoff, t.retryCount, nowNs, jitter);
              queues == old(queues)[name := Nacked(Get(old(queues), name), t, at)]
      ensures t.CanRetry() && t.retryCount > 0 && 280 <= t.retryBackoff < TWO_34 ==>
                var delayed := Get(queues, name).delayed;
                && t in delayed
                && delayed[t] == (nowNs + IdealBackoff(t.retryBackoff, t.retryCount) + jitter) / NS_PER_MS
    {
      hide IdealBackoff;
      var q := Unleased(Get(queues, name), t.id);
      if t.CanRetry() && t.retryBackoff > 0 {
        var backoff := ComputeRetryBackoff(t.retryBackoff, t.retryCount, jitter);
        q := Delayed(q, t, (nowNs + backoff) / NS_PER_MS);
      } else if t.CanRetry() {
        q := q.(ready := q.ready[t := ReadyScore(t)]);
      } else {
        q := q.(stats := q.stats.(failed := q.stats.failed + 1));
      }
      queues := queues[name := q];
    }

    /** The promote script after its range query. */
    static method PromoteEach(start: Queue, due: seq<Task>) returns (q: Queue)
      requires Distinct(due)
      ensures q == Promoted(start, Elements(due))
    {
      q := start;
      PromoteNone(start);
      for i := 0 to |due|
        invariant q == Promoted(start, Elements(due[..i]))
      {
        NextElement(due, i);
        PromoteOneMore(start, Elements(due[..i]), due[i]);
        SinglePromote(q, due[i]);
        q := q.(ready := q.ready[due[i] := ReadyScore(due[i])]);
        q := q.(delayed := q.delayed - {due[i]});
      }
      assert due[..|due|] == due;
    }

    method PromoteDelayed(name: string, batch: int, now: int) returns (promoted: nat, ghost ts: seq<Task>)
      modifies this
      ensures IsRange(Get(old(queues), name).delayed, now, batch, ts)
      ensures queues == old(queues)[name := Promoted(Get(old(queues), name), Elements(ts))]
      ensures promoted == |ts|
    {
      var due := RangeByScore(Get(queues, name).delayed, now, batch);
      var q := PromoteEach(Get(queues, name), due);
      queues := queues[name := q];
      promoted, ts := |due|, due;
    }

    method EnqueueIfNotInflight(name: string, t: Task) returns (enqueued: bool)
      modifies this
      ensures enqueued <==> t.id !in Get(old(queues), name).inflight
      ensures queues == if enqueued then old(queues)[name := Compensated(Get(old(queues), name), t)] else old(queues)
    {
      var q := Get(queues, name);
      if t.id in q.inflight {
        return false;
      }
      queues := queues[name := q.(ready := q.ready[t := ReadyScore(t)])];
      return true;
    }

    /** Drop every member the scan pattern matches. The order of the scan is left open. */
    static method DropMatching(z: map<Task, int>, id: string) returns (left: map<Task, int>, dropped: nat)
      ensures left == Unmatched(z, id)
      ensures dropped == |z| - |left|
    {
      left, dropped := z, 0;
      var unseen := z.Keys;
      while unseen != {}
        invariant unseen <= left.Keys <= z.Keys
        invariant forall t | t in left :: left[t] == z[t] && (t in unseen || !t.Matches(id))
        invariant forall t | t in z && !t.Matches(id) :: t in left
        invariant dropped == |z| - |left|
        decreases |unseen|
      {
        var t :| t in unseen;
        if t.Matches(id) {
          assert (left - {t}).Keys == left.Keys - {t};
          left, dropped := left - {t}, dropped + 1;
        }
        unseen := unseen - {t};
      }
    }

    method Remove(name: string, id: string) returns (removed: nat)
      modifies this
      ensures queues == old(queues)[name := Removed(Get(old(queues), name), id)]
      ensures var q, r := Get(old(queues), name), Get(queues, name);
              removed == |q.ready| - |r.ready| + |q.delayed| - |r.delayed| + if id in q.inflight then 1 else 0
    {
      var q := Get(queues, name);
      removed := if id in q.inflight then 1 else 0;
      var ready, fromReady := DropMatching(q.ready, id);
      var delayed, fromDelayed := DropMatching(q.delayed, id);
      queues := queues[name := Unleased(q, id).(ready := ready, delayed := delayed)];
      removed := removed + fromReady + fromDelayed;
    }

    /** The reclaim script's loop body: drop the lease, and move the copy back if there is one. */
    static method ReclaimOne(start: Queue, id: string) returns (q: Queue, moved: nat)
      ensures q == Reclaimed(start, {id})
      ensures moved == |start.inflight| - |q.inflight|
    {
      SingleReclaim(start, id);
      MinusOneSize(start.inflight, id);
      var data := if id in start.inflight then Some(start.inflight[id]) else None;
      q, moved := start.(lease := start.lease - {id}), 0;
      if data.Some? {
        q := q.(inflight := q.inflight - {id});
        q := q.(ready := q.ready[data.value := ReadyScore(data.value)]);
        moved := 1;
      }
    }

    /** The reclaim script after its range query. */
    static method ReclaimEach(start: Queue, expired: seq<string>) returns (q: Queue, reclaimed: nat)
      requires Distinct(expired)
      ensures q == Reclaimed(start, Elements(expired))
      ensures reclaimed == |start.inflight| - |q.inflight|
    {
      q, reclaimed := start, 0;
      ReclaimNone(start);
      for i := 0 to |expired|
        invariant q == Reclaimed(start, Elements(expired[..i]))
        invariant reclaimed == |start.inflight| - |q.inflight|
      {
        NextElement(expired, i);
        ReclaimOneMore(start, Elements(expired[..i]), expired[i]);
        var moved;
        q, moved := ReclaimOne(q, expired[i]);
        reclaimed := reclaimed + moved;
      }
      assert expired[..|expired|] == expired;
    }

    /** A batch of 0 or less means the default of 100. Returns the number of copies moved back. */
    method ReclaimInflight(name: string, batchSize: int, now: int) returns (reclaimed: nat, ghost ids: seq<string>)
      modifies this
      ensures IsRange(Get(old(queues), name).lease, now, if batchSize <= 0 then 100 else batchSize, ids)
      ensures queues == old(queues)[name := Reclaimed(Get(old(queues), name), Elements(ids))]
      ensures reclaimed == |Get(old(queues), name).inflight| - |Get(queues, name).inflight|
    {
      var batch := if batchSize <= 0 then DEFAULT_RECLAIM_BATCH else batchSize;
      var expired := RangeByScore(Get(queues, name).lease, now, batch);
      var q;
      q, reclaimed := ReclaimEach(Get(queues, name), expired);
      queues := queues[name := q];
      ids := expired;
    }
  }

  lemma NextElement<M>(r: seq<M>, i: nat)
    requires Distinct(r) && i < |r|
    ensures Elements(r[..i + 1]) == Elements(r[..i]) + {r[i]} && r[i] !in Elements(r[..i])
  {
  }

  lemma PromoteNone(q: Queue)
    ensures Promoted(q, {}) == q
  {
  }

  lemma ReclaimNone(q: Queue)
    ensures Reclaimed(q, {}) == q
  {
  }

  /** The body of the promote loop for one copy. */
  lemma SinglePromote(q: Queue, t: Task)
    ensures Promoted(q, {t}) == q.(ready := q.ready[t := ReadyScore(t)], delayed := q.delayed - {t})
  {
  }

  /** The body of the reclaim loop for one id. */
  lemma SingleReclaim(q: Queue, id: string)
    ensures id in q.inflight ==>
              Reclaimed(q, {id}) == q.(lease := q.lease - {id}, inflight := q.inflight - {id},
                                       ready := q.ready[q.inflight[id] := ReadyScore(q.inflight[id])])
    ensures id !in q.inflight ==> Reclaimed(q, {id}) == q.(lease := q.lease - {id})
  {
  }

  lemma MinusOneSize<K, V>(m: map<K, V>, k: K)
    ensures |m| - |m - {k}| == if k in m then 1 else 0
  {
  }
}
