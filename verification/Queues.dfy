/** One Redis queue as a value, with the effect of every broker script and pipeline on it. */
module Queues {
  import opened Entities
  import opened SortedSets
  import opened Keys

  datatype Stats = Stats(enqueued: nat, completed: nat, failed: nat)

  /** ready and delayed are sorted sets of task copies, inflight is a hash from task id to copy and
      lease a sorted set of task ids scored by deadline (ms). */
  datatype Queue = Queue(
    ready: map<Task, int>,
    delayed: map<Task, int>,
    inflight: map<string, Task>,
    lease: map<string, int>,
    stats: Stats)

  const EmptyQueue := Queue(map[], map[], map[], map[], Stats(0, 0, 0))

  function Get(queues: map<string, Queue>, name: string): Queue {
    if name in queues then queues[name] else EmptyQueue
  }

  function ReadyScore(t: Task): int {
    -t.priority
  }

  /** The ready scores of a set of copies. */
  function Scores(ts: set<Task>): map<Task, int> {
    map t | t in ts :: ReadyScore(t)
  }

  lemma ScoresUnion(z: map<Task, int>, a: set<Task>, b: set<Task>)
    ensures z + Scores(a) + Scores(b) == z + Scores(a + b)
  {
  }

  lemma MinusTwice<K, V>(m: map<K, V>, a: set<K>, b: set<K>)
    ensures m - a - b == m - (a + b)
  {
  }

  // ----- effects -----

  function Enqueued(q: Queue, t: Task): Queue {
    q.(ready := q.ready[t := ReadyScore(t)], stats := q.stats.(enqueued := q.stats.enqueued + 1))
  }

  function Delayed(q: Queue, t: Task, at: int): Queue {
    q.(delayed := q.delayed[t := at])
  }

  function Popped(q: Queue, t: Task, deadline: int): Queue {
    q.(ready := q.ready - {t}, inflight := q.inflight[t.id := t], lease := q.lease[t.id := deadline])
  }

  function Taken(q: Queue, t: Task): Queue {
    q.(ready := q.ready - {t})
  }

  function Kept(q: Queue, t: Task): Queue {
    q.(inflight := q.inflight[t.id := t])
  }

  /** The dequeue script on queue `name`: the copy leaves its ready set for the inflight hash and the
      lease set whose keys the script derives. */
  function Dequeued(queues: map<string, Queue>, name: string, t: Task, deadline: int): map<string, Queue> {
    var taken := queues[name := Taken(Get(queues, name), t)];
    var held := taken[InflightName(name) := Kept(Get(taken, InflightName(name)), t)];
    held[LeaseName(name) := Leased(Get(held, LeaseName(name)), t.id, deadline)]
  }

  /** For an agreeing name all three are one queue. */
  lemma DequeuedAgrees(queues: map<string, Queue>, name: string, t: Task, deadline: int)
    requires Agrees(name)
    ensures Dequeued(queues, name, t, deadline) == queues[name := Popped(Get(queues, name), t, deadline)]
  {
    hide InflightName, LeaseName, Agrees;
    NamesApart(name);
  }

  function Leased(q: Queue, id: string, deadline: int): Queue {
    q.(lease := q.lease[id := deadline])
  }

  function Unleased(q: Queue, id: string): Queue {
    q.(inflight := q.inflight - {id}, lease := q.lease - {id})
  }

  function Acked(q: Queue, id: string): Queue {
    Unleased(q, id).(stats := q.stats.(completed := q.stats.completed + 1))
  }

  function Nacked(q: Queue, t: Task, at: int): Queue {
    var rest := Unleased(q, t.id);
    if t.CanRetry() && t.retryBackoff > 0 then Delayed(rest, t, at)
    else if t.CanRetry() then rest.(ready := rest.ready[t := ReadyScore(t)])
    else rest.(stats := q.stats.(failed := q.stats.failed + 1))
  }

  function Promoted(q: Queue, ts: set<Task>): Queue {
    q.(ready := q.ready + Scores(ts), delayed := q.delayed - ts)
  }

  function Compensated(q: Queue, t: Task): Queue {
    if t.id in q.inflight then q else q.(ready := q.ready[t := ReadyScore(t)])
  }

  function Unmatched(z: map<Task, int>, id: string): map<Task, int> {
    map t | t in z && !t.Matches(id) :: z[t]
  }

  function Removed(q: Queue, id: string): Queue {
    Unleased(q, id).(ready := Unmatched(q.ready, id), delayed := Unmatched(q.delayed, id))
  }

  /** The copies that reclaiming these ids takes out of inflight. */
  function Stranded(q: Queue, ids: set<string>): set<Task> {
    set id | id in ids && id in q.inflight :: q.inflight[id]
  }

  function Reclaimed(q: Queue, ids: set<string>): Queue {
    q.(ready := q.ready + Scores(Stranded(q, ids)),
       inflight := q.inflight - ids,
       lease := q.lease - ids)
  }

  /** Every copy a queue holds. */
  function Copies(q: Queue): set<Task> {
    q.ready.Keys + q.delayed.Keys + q.inflight.Values
  }

  // ----- one delivery from dequeue to its end -----

  /** Ack undoes what the dequeue recorded, and with it whatever an earlier delivery of the task left in inflight
      and lease: of the whole delivery only the copy's absence from ready and one completed task remain. */
  lemma AckEndsDelivery(q: Queue, t: Task, deadline: int)
    ensures
      var r := Acked(Popped(q, t, deadline), t.id);
      && r == Unleased(q, t.id).(ready := q.ready - {t}, stats := q.stats.(completed := q.stats.completed + 1))
      && (t.id !in q.inflight ==> r.inflight == q.inflight) && (t.id !in q.lease ==> r.lease == q.lease)
  {
    assert q.inflight[t.id := t] - {t.id} == q.inflight - {t.id};
    assert q.lease[t.id := deadline] - {t.id} == q.lease - {t.id};
  }

  /** Nack does too. The changed copy is queued in exactly one place while it has a retry left, and counted as
      failed if not. */
  lemma NackEndsDelivery(q: Queue, t: Task, u: Task, deadline: int, at: int)
    requires u.id == t.id
    ensures
      var r := Nacked(Popped(q, t, deadline), u, at);
      var later, again := u.CanRetry() && u.retryBackoff > 0, u.CanRetry() && u.retryBackoff <= 0;
      && r.inflight == q.inflight - {t.id} && r.lease == q.lease - {t.id}
      && r.delayed == (if later then q.delayed[u := at] else q.delayed)
      && r.ready == (if again then (q.ready - {t})[u := ReadyScore(u)] else q.ready - {t})
      && r.stats == if u.CanRetry() then q.stats else q.stats.(failed := q.stats.failed + 1)
  {
    assert q.inflight[t.id := t] - {t.id} == q.inflight - {t.id};
    assert q.lease[t.id := deadline] - {t.id} == q.lease - {t.id};
  }

  // ----- reclaim -----

  lemma ReclaimOneMore(q: Queue, done: set<string>, id: string)
    requires id !in done
    ensures Reclaimed(Reclaimed(q, done), {id}) == Reclaimed(q, done + {id})
  {
    var mid := Reclaimed(q, done);
    StrandedUnion(q, done, id);
    ScoresUnion(q.ready, Stranded(q, done), Stranded(mid, {id}));
    MinusTwice(q.inflight, done, {id});
    MinusTwice(q.lease, done, {id});
  }

  lemma StrandedUnion(q: Queue, done: set<string>, id: string)
    requires id !in done
    ensures Stranded(q, done + {id}) == Stranded(q, done) + Stranded(Reclaimed(q, done), {id})
  {
  }

  /** A reclaimed copy is back in ready; nothing else enters or leaves. */
  lemma ReclaimKeepsCopies(q: Queue, ids: set<string>)
    ensures Reclaimed(q, ids).ready.Keys == q.ready.Keys + Stranded(q, ids)
    ensures Reclaimed(q, ids).ready.Keys + Reclaimed(q, ids).inflight.Values == q.ready.Keys + q.inflight.Values
  {
    var r := Reclaimed(q, ids);
    forall t | t in q.inflight.Values ensures t in Stranded(q, ids) + r.inflight.Values {
      var id :| id in q.inflight && q.inflight[id] == t;
      if id !in ids {
        assert id in r.inflight && r.inflight[id] == t;
      }
    }
    forall t | t in Stranded(q, ids) + r.inflight.Values ensures t in q.inflight.Values {
      if t in r.inflight.Values {
        var id :| id in r.inflight && r.inflight[id] == t;
        assert q.inflight[id] == t;
      }
    }
    assert Scores(Stranded(q, ids)).Keys == Stranded(q, ids);
  }

  lemma MinusSize<K, V>(m: map<K, V>, gone: set<K>)
    ensures |gone * m.Keys| == |m| - |m - gone|
  {
  }

  /** One reclaim call: it takes exactly the earliest expired leases the batch allows, loses no
      copy, touches no other lease and reports the shrinkage of inflight. */
  lemma ReclaimConserves(q: Queue, now: int, batch: int, ids: seq<string>)
    requires IsRange(q.lease, now, batch, ids)
    ensures
      var r := Reclaimed(q, Elements(ids));
      && r.ready.Keys + r.inflight.Values == q.ready.Keys + q.inflight.Values
      && r.ready.Keys >= q.ready.Keys
      && r.delayed == q.delayed
      && (forall id | id in q.lease && q.lease[id] > now ::
            id in r.lease && r.lease[id] == q.lease[id]
            && (id in q.inflight ==> id in r.inflight && r.inflight[id] == q.inflight[id]))
      && (forall id | id in q.lease && q.lease[id] <= now && id in r.lease ::
            |ids| == batch && forall e | e in ids :: q.lease[e] <= q.lease[id])
      && |Elements(ids) * q.inflight.Keys| == |q.inflight| - |r.inflight|
      && |Due(r.lease, now)| == |Due(q.lease, now)| - Limit(batch, |Due(q.lease, now)|)
  {
    var r := Reclaimed(q, Elements(ids));
    ReclaimKeepsCopies(q, Elements(ids));
    MinusSize(q.inflight, Elements(ids));
    DueAfterRange(q.lease, now, batch, ids);
    forall id | id in q.lease && q.lease[id] <= now && id in r.lease
      ensures |ids| == batch && forall e | e in ids :: q.lease[e] <= q.lease[id]
    {
      LeftOutIsLater(q.lease, now, batch, ids, id);
    }
  }

  /** A history of reclaim calls with one clock and one batch size. */
  ghost predicate ReclaimCalls(qs: seq<Queue>, now: int, batch: int) {
    && qs != []
    && forall i | 0 <= i < |qs| - 1 :: ReclaimCall(qs[i], qs[i + 1], now, batch)
  }

  ghost predicate ReclaimCall(q: Queue, r: Queue, now: int, batch: int) {
    exists ids :: IsRange(q.lease, now, batch, ids) && r == Reclaimed(q, Elements(ids))
  }

  /** n expired leases are gone after ceil(n / batch) calls and not before. */
  lemma {:induction false} ReclaimDrains(qs: seq<Queue>, now: int, batch: nat)
    requires batch > 0 && ReclaimCalls(qs, now, batch)
    ensures
      var n := |Due(qs[0].lease, now)|;
      && |Due(qs[|qs| - 1].lease, now)| == Left(n, batch, |qs| - 1)
      && (Due(qs[|qs| - 1].lease, now) == {} <==> |qs| - 1 >= (n + batch - 1) / batch)
  {
    var n := |Due(qs[0].lease, now)|;
    var last := |qs| - 1;
    if last > 0 {
      ReclaimDrains(qs[..last], now, batch);
      assert ReclaimCall(qs[last - 1], qs[last], now, batch);
      var ids :| IsRange(qs[last - 1].lease, now, batch, ids) && qs[last] == Reclaimed(qs[last - 1], Elements(ids));
      ReclaimConserves(qs[last - 1], now, batch, ids);
      assert last * batch == (last - 1) * batch + batch;
    }
    LeftIsZero(n, batch, last);
  }

  // ----- promote -----

  lemma PromoteOneMore(q: Queue, done: set<Task>, t: Task)
    requires t !in done
    ensures Promoted(Promoted(q, done), {t}) == Promoted(q, done + {t})
  {
    ScoresUnion(q.ready, done, {t});
    MinusTwice(q.delayed, done, {t});
  }

  /** One promote call: nothing is promoted early, the earliest go first, no copy is lost and each
      promoted copy is scored by its own priority. */
  lemma PromoteConserves(q: Queue, now: int, batch: int, ts: seq<Task>)
    requires IsRange(q.delayed, now, batch, ts)
    ensures
      var r := Promoted(q, Elements(ts));
      && r.ready.Keys + r.delayed.Keys == q.ready.Keys + q.delayed.Keys
      && r.inflight == q.inflight && r.lease == q.lease
      && (forall t | t in q.delayed && t !in r.delayed ::
            q.delayed[t] <= now && t in r.ready && r.ready[t] == ReadyScore(t))
      && (forall t | t in q.delayed && q.delayed[t] > now :: t in r.delayed && r.delayed[t] == q.delayed[t])
      && (forall t | t in r.delayed && q.delayed[t] <= now ::
            |ts| == batch && forall moved | moved in ts :: q.delayed[moved] <= q.delayed[t])
      && |Due(r.delayed, now)| == |Due(q.delayed, now)| - Limit(batch, |Due(q.delayed, now)|)
  {
    var r := Promoted(q, Elements(ts));
    PromoteKeepsCopies(q, Elements(ts));
    DueAfterRange(q.delayed, now, batch, ts);
    forall t | t in q.delayed && t !in r.delayed
      ensures q.delayed[t] <= now && t in r.ready && r.ready[t] == ReadyScore(t)
    {
      assert t in ts;
      PromotedScore(q, Elements(ts), t);
    }
    forall t | t in r.delayed && q.delayed[t] <= now
      ensures |ts| == batch && forall moved | moved in ts :: q.delayed[moved] <= q.delayed[t]
    {
      LeftOutIsLater(q.delayed, now, batch, ts, t);
    }
  }

  lemma PromotedScore(q: Queue, ts: set<Task>, t: Task)
    requires t in ts
    ensures t in Promoted(q, ts).ready && Promoted(q, ts).ready[t] == ReadyScore(t)
  {
  }

  lemma PromoteKeepsCopies(q: Queue, ts: set<Task>)
    ensures Promoted(q, ts).ready.Keys == q.ready.Keys + ts
    ensures ts <= q.delayed.Keys
            ==> Promoted(q, ts).ready.Keys + Promoted(q, ts).delayed.Keys == q.ready.Keys + q.delayed.Keys
  {
  }

  ghost predicate PromoteCalls(qs: seq<Queue>, now: int, batch: int) {
    && qs != []
    && forall i | 0 <= i < |qs| - 1 :: PromoteCall(qs[i], qs[i + 1], now, batch)
  }

  ghost predicate PromoteCall(q: Queue, r: Queue, now: int, batch: int) {
    exists ts :: IsRange(q.delayed, now, batch, ts) && r == Promoted(q, Elements(ts))
  }

  lemma {:induction false} PromoteDrains(qs: seq<Queue>, now: int, batch: nat)
    requires batch > 0 && PromoteCalls(qs, now, batch)
    ensures
      var n := |Due(qs[0].delayed, now)|;
      && |Due(qs[|qs| - 1].delayed, now)| == Left(n, batch, |qs| - 1)
      && (Due(qs[|qs| - 1].delayed, now) == {} <==> |qs| - 1 >= (n + batch - 1) / batch)
  {
    var n := |Due(qs[0].delayed, now)|;
    var last := |qs| - 1;
    if last > 0 {
      PromoteDrains(qs[..last], now, batch);
      assert PromoteCall(qs[last - 1], qs[last], now, batch);
      var ts :| IsRange(qs[last - 1].delayed, now, batch, ts) && qs[last] == Promoted(qs[last - 1], Elements(ts));
      PromoteConserves(qs[last - 1], now, batch, ts);
      assert last * batch == (last - 1) * batch + batch;
    }
    LeftIsZero(n, batch, last);
  }
}
