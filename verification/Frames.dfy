/** What one event can change: where copies in the queues come from, and which rows and attempts differ
    afterwards. */
module Frames {
  import opened Entities
  import opened SortedSets
  import opened Keys
  import opened Queues
  import opened Timing
  import opened TaskTable
  import opened Protocol

  // ----- copies -----

  lemma CopiesAdded(q: Queue, t: Task, at: int)
    ensures Copies(Enqueued(q, t)) <= Copies(q) + {t}
    ensures Copies(Queues.Delayed(q, t, at)) <= Copies(q) + {t}
    ensures Copies(Compensated(q, t)) <= Copies(q) + {t}
  {
  }

  lemma CopiesPopped(q: Queue, t: Task, deadline: int)
    requires t in q.ready
    ensures Copies(Popped(q, t, deadline)) <= Copies(q)
  {
  }

  lemma CopiesUnleased(q: Queue, id: string, deadline: int)
    ensures Copies(Unleased(q, id)) <= Copies(q) && Copies(Acked(q, id)) <= Copies(q)
    ensures Copies(Removed(q, id)) <= Copies(q)
    ensures Copies(Leased(q, id, deadline)) == Copies(q)
  {
  }

  lemma CopiesNacked(q: Queue, t: Task, at: int)
    ensures Copies(Nacked(q, t, at)) <= Copies(q) + {t}
  {
  }

  lemma CopiesPromoted(q: Queue, ts: set<Task>)
    requires ts <= q.delayed.Keys
    ensures Copies(Promoted(q, ts)) <= Copies(q)
  {
  }

  lemma CopiesReclaimed(q: Queue, ids: set<string>)
    ensures Copies(Reclaimed(q, ids)) <= Copies(q)
  {
  }

  /** Every queued copy was in a queue before or is one of those that the step brings. */
  ghost predicate ComesFrom(s: System, r: System, incoming: set<Task>) {
    forall name, t | t in Copies(Get(r.redis, name)) :: t in Copies(Get(s.redis, name)) || t in incoming
  }

  lemma SameRedis(s: System, r: System, incoming: set<Task>)
    requires r.redis == s.redis
    ensures ComesFrom(s, r, incoming)
  {
  }

  lemma PutRedis(s: System, r: System, name: string, q: Queue, incoming: set<Task>)
    requires r.redis == s.redis[name := q]
    requires Copies(q) <= Copies(Get(s.redis, name)) + incoming
    ensures ComesFrom(s, r, incoming)
  {
    hide Copies;
    forall n, t | t in Copies(Get(r.redis, n)) ensures t in Copies(Get(s.redis, n)) || t in incoming {
      if n == name {
        assert Get(r.redis, n) == q;
      } else {
        assert Get(r.redis, n) == Get(s.redis, n);
      }
    }
  }

  lemma CopiesDequeued(redis: map<string, Queue>, name: string, t: Task, deadline: int, n: string)
    ensures Copies(Get(Dequeued(redis, name, t, deadline), n)) <= Copies(Get(redis, n)) + {t}
  {
    hide InflightName, LeaseName;
  }

  /** A dequeued copy may turn up in the hash of another queue. */
  lemma FetchSources(s: System, p: nat, node: string, name: string, t: Task, now: int)
    ensures ComesFrom(s, DoFetch(s, p, node, name, t, now), {t})
  {
    hide Copies, Dequeued, Get;
    forall n ensures Copies(Get(DoFetch(s, p, node, name, t, now).redis, n)) <= Copies(Get(s.redis, n)) + {t} {
      CopiesDequeued(s.redis, name, t, now + DEFAULT_VISIBILITY / NS_PER_MS, n);
    }
  }

  /** If the name agrees, it does not. */
  lemma FetchSourcesAtHome(s: System, p: nat, node: string, name: string, t: Task, now: int)
    requires t in Get(s.redis, name).ready && Agrees(name)
    ensures ComesFrom(s, DoFetch(s, p, node, name, t, now), {})
  {
    hide Copies, ComesFrom, Popped, Get, Dequeued, Agrees;
    var deadline := now + DEFAULT_VISIBILITY / NS_PER_MS;
    DequeuedAgrees(s.redis, name, t, deadline);
    CopiesPopped(Get(s.redis, name), t, deadline);
    PutRedis(s, DoFetch(s, p, node, name, t, now), name, Popped(Get(s.redis, name), t, deadline), {});
  }

  lemma SubmitSources(s: System, t: Task, at: int)
    ensures ComesFrom(s, DoEnqueue(s, t), {t})
    ensures ComesFrom(s, DoEnqueueDelayed(s, t, at), {t})
    ensures ComesFrom(s, DoCompensate(s, t), {t})
  {
    hide Copies, ComesFrom, Enqueued, Queues.Delayed, Compensated;
    var q := Get(s.redis, t.queue);
    CopiesAdded(q, t, at);
    PutRedis(s, DoEnqueue(s, t), t.queue, Enqueued(q, t), {t});
    PutRedis(s, DoEnqueueDelayed(s, t, at), t.queue, Queues.Delayed(q, t, at), {t});
    if t.id in q.inflight {
      SameRedis(s, DoCompensate(s, t), {t});
    } else {
      PutRedis(s, DoCompensate(s, t), t.queue, Compensated(q, t), {t});
    }
  }

  lemma EndSources(s: System, p: nat, at: int, lost: bool)
    requires p in s.attempts
    ensures ComesFrom(s, DoAck(s, p, lost), {})
    ensures ComesFrom(s, DoNack(s, p, at, lost), if lost then {} else {s.attempts[p].task})
  {
    hide Copies, ComesFrom, Acked, Nacked, Get;
    var t := s.attempts[p].task;
    var q := Get(s.redis, t.queue);
    CopiesUnleased(q, t.id, 0);
    CopiesNacked(q, t, at);
    if lost {
      SameRedis(s, DoAck(s, p, lost), {});
      SameRedis(s, DoNack(s, p, at, lost), {});
    } else {
      PutRedis(s, DoAck(s, p, lost), t.queue, Acked(q, t.id), {});
      PutRedis(s, DoNack(s, p, at, lost), t.queue, Nacked(q, t, at), {t});
    }
  }

  lemma ExtendSources(s: System, p: nat)
    requires p in s.attempts
    ensures ComesFrom(s, DoExtend(s, p), {})
    ensures ComesFrom(s, Exit(DoExtend(s, p), p), {}) && ComesFrom(s, Exit(s, p), {})
  {
    hide Copies, ComesFrom, Leased, Get, LongLease, VisibilityMs;
    var a := s.attempts[p];
    var t := a.task;
    var deadline := a.fetchedAt + VisibilityMs(t.timeout);
    CopiesUnleased(Get(s.redis, t.queue), t.id, deadline);
    SameRedis(s, Exit(s, p), {});
    if LongLease(t) {
      PutRedis(s, DoExtend(s, p), t.queue, Leased(Get(s.redis, t.queue), t.id, deadline), {});
      PutRedis(s, Exit(DoExtend(s, p), p), t.queue, Leased(Get(s.redis, t.queue), t.id, deadline), {});
    } else {
      SameRedis(s, DoExtend(s, p), {});
      SameRedis(s, Exit(DoExtend(s, p), p), {});
    }
  }

  lemma RemoveSources(s: System, c: nat, lost: bool)
    requires c in s.cancellers
    ensures ComesFrom(s, DoCancelRemove(s, c, lost), {})
  {
    hide Copies, ComesFrom, Removed, Get;
    var t := s.cancellers[c].task;
    CopiesUnleased(Get(s.redis, t.queue), t.id, 0);
    if lost {
      SameRedis(s, DoCancelRemove(s, c, lost), {});
    } else {
      PutRedis(s, DoCancelRemove(s, c, lost), t.queue, Removed(Get(s.redis, t.queue), t.id), {});
    }
  }

  lemma BatchSources(s: System, name: string, now: int, batch: int, ts: seq<Task>, ids: seq<string>)
    ensures IsRange(Get(s.redis, name).delayed, now, batch, ts) ==> ComesFrom(s, DoPromote(s, name, now, ts), {})
    ensures ComesFrom(s, OnQueue(s, name, Reclaimed(Get(s.redis, name), Elements(ids))), {})
  {
    hide Copies, ComesFrom, Promoted, Reclaimed, Get;
    var q := Get(s.redis, name);
    if IsRange(q.delayed, now, batch, ts) {
      CopiesPromoted(q, Elements(ts));
      PutRedis(s, DoPromote(s, name, now, ts), name, Promoted(q, Elements(ts)), {});
    }
    CopiesReclaimed(q, Elements(ids));
    PutRedis(s, OnQueue(s, name, Reclaimed(q, Elements(ids))), name, Reclaimed(q, Elements(ids)), {});
  }

  // ----- rows -----

  /** One Update: no other row changes, and nothing but the rows and the committed states. */
  lemma WriteFrame(s: System, t: Task, fault: Fault)
    ensures
      var w := Write(s, t, fault);
      && w == s.(rows := w.rows, history := s.history.(content := w.history.content, hearing := w.history.hearing))
      && (forall id | id != t.id :: (id in w.rows <==> id in s.rows) && (id in s.rows ==> w.rows[id] == s.rows[id]))
      && (t.id in s.rows <==> t.id in w.rows)
      && (t.id in s.rows && t.state != Pending ==> w.rows[t.id] == s.rows[t.id] || w.rows[t.id].state == t.state)
      && (Commits(s.rows, t, fault) && t.version >= 1 ==> w.rows[t.id].version == t.version + 1)
      && (Commits(s.rows, t, fault) && t.state != Pending ==> w.rows[t.id].state == t.state)
      && (!LockHolds(s.rows, t) || !Commits(s.rows, t, fault) ==> w == s)
  {
  }

  // ----- attempts -----

  /** A signal marks at most one attempt. */
  lemma DeliverMoves(s: System, node: string, id: string) returns (p: nat, b: Attempt)
    ensures
      var r := DoDeliver(s, node, id);
      && r == s.(attempts := r.attempts, history := s.history.(hearing := r.history.hearing))
      && (r.attempts == s.attempts
          || (p in s.attempts && b == s.attempts[p].(cancelled := true) && r.attempts == s.attempts[p := b]))
  {
    p, b := 0, NoAttempt;
    if (node, id) in s.cancels && s.cancels[(node, id)] in s.attempts {
      p := s.cancels[(node, id)];
      b := s.attempts[p].(cancelled := true);
    }
  }
}
