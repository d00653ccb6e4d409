/** Each threat that module Finality names can be carried out: from every state with one, the steps that
    overwrite the cancelled row. With the invariant there, the condition is exact. */
module Threats {
  import opened Entities
  import opened SortedSets
  import opened Keys
  import opened Queues
  import opened TaskTable
  import opened Timing
  import opened Protocol
  import opened Shape
  import opened OptimisticLock
  import opened Walks
  import opened Overwrites
  import opened Finality

  /** The batch of the promote and reclaim calls below. */
  const BATCH := 100

  /** The row as a cancel left it. */
  predicate Stands(s: System, row: Task) {
    row.id in s.rows && s.rows[row.id] == row && row.state == Cancelled
  }

  ghost predicate Overwritten(s: System, id: string) {
    id in s.rows && s.rows[id].state != Cancelled
  }

  /** From s the row can be overwritten. */
  ghost predicate CanOverwrite(s: System, row: Task) {
    exists es :: Run(s, es).Some? && Overwritten(Run(s, es).value, row.id)
  }

  /** One step before a state from which it can. */
  lemma OneBefore(s: System, row: Task, e: Event)
    requires Enabled(s, e) && CanOverwrite(Apply(s, e), row)
    ensures CanOverwrite(s, row)
  {
    hide Enabled, Apply, Overwritten;
    RunEmpty(s);
    var es, r := Go(s, [], s, e);
    var fs :| Run(r, fs).Some? && Overwritten(Run(r, fs).value, row.id);
    var all := Join(s, es, r, fs, Run(r, fs).value);
  }

  lemma NextReachable(s: System, e: Event)
    requires Reachable(s) && Enabled(s, e)
    ensures Reachable(Apply(s, e))
  {
    hide Enabled, Apply, Reachable;
    RunEmpty(s);
    var es, r := Go(s, [], s, e);
    StaysReachable(s, es, r);
  }

  // ----- an attempt -----

  lemma SettlingOverwrites(s: System, row: Task, p: nat)
    requires Reachable(s) && Stands(s, row) && InPhase(s, p, Settling)
    requires s.attempts[p].task.id == row.id && s.attempts[p].task.version == row.version
    ensures CanOverwrite(s, row)
  {
    hide Reachable, Enabled, Apply, DoSettle, Run;
    SettlingOverwrittenIff(s, p, NoFault);
    SettleStep(s, p);
    RunEmpty(s);
    var es, r := Go(s, [], s, Settle(p, NoFault));
  }

  lemma HandlingOverwrites(s: System, row: Task, p: nat)
    requires Reachable(s) && Stands(s, row) && InPhase(s, p, Handling)
    requires s.attempts[p].task.id == row.id && s.attempts[p].task.version == row.version
    ensures CanOverwrite(s, row)
  {
    hide Reachable, Enabled, Apply, DoReturn, CanOverwrite;
    var e := Return(p, true, false, true);
    ReturnStep(s, p);
    NextReachable(s, e);
    SettlingOverwrites(Apply(s, e), row, p);
    OneBefore(s, row, e);
  }

  lemma ClearedOverwrites(s: System, row: Task, p: nat)
    requires Reachable(s) && Stands(s, row) && InPhase(s, p, Cleared) && Behind(row, s.attempts[p].task)
    ensures CanOverwrite(s, row)
  {
    hide Reachable, Enabled, Apply, DoStart, CanOverwrite;
    var e := Start(p, NoFault);
    StartStep(s, p, NoFault);
    StartMisses(s, p, NoFault);
    NextReachable(s, e);
    HandlingOverwrites(Apply(s, e), row, p);
    OneBefore(s, row, e);
  }

  /** How many steps an attempt is away from its Running write. */
  function Distance(phase: Phase): nat {
    match phase
    case Fetched => 4
    case Loaded => 3
    case Screened => 2
    case Tracked => 1
    case _ => 0
  }

  /** Attempt p is one step nearer to its Running write, and the rows are as they were. */
  ghost predicate Nearer(s: System, r: System, p: nat)
    requires p in s.attempts
  {
    && r.rows == s.rows && p in r.attempts && r.attempts[p].task == s.attempts[p].task
    && Unwritten(r.attempts[p].phase) && Distance(r.attempts[p].phase) + 1 == Distance(s.attempts[p].phase)
  }

  /** With state checks that cannot be read, every step leads on. */
  lemma Proceeds(s: System, p: nat) returns (e: Event)
    requires p in s.attempts && Unwritten(s.attempts[p].phase) && s.attempts[p].phase != Cleared
    ensures Enabled(s, e) && Nearer(s, Apply(s, e), p)
  {
    hide Enabled, Apply, DoExtend, DoScreen, DoTrack, DoRecheck, Nearer;
    PhaseSteps(s, p);
    match s.attempts[p].phase {
      case Fetched => e := Extend(p); ExtendLeadsOn(s, p);
      case Loaded => e := Screen(p, false); CheckLeadsOn(s, p);
      case Screened => e := Track(p); TrackLeadsOn(s, p);
      case Tracked => e := Recheck(p, false); CheckLeadsOn(s, p);
    }
  }

  lemma PhaseSteps(s: System, p: nat)
    requires p in s.attempts
    ensures InPhase(s, p, Fetched) ==> Enabled(s, Extend(p)) && Apply(s, Extend(p)) == DoExtend(s, p)
    ensures InPhase(s, p, Loaded) ==>
              Enabled(s, Screen(p, false)) && Apply(s, Screen(p, false)) == DoScreen(s, p, false)
    ensures InPhase(s, p, Screened) ==> Enabled(s, Track(p)) && Apply(s, Track(p)) == DoTrack(s, p)
    ensures InPhase(s, p, Tracked) ==>
              Enabled(s, Recheck(p, false)) && Apply(s, Recheck(p, false)) == DoRecheck(s, p, false)
  {
    hide DoExtend, DoScreen, DoTrack, DoRecheck;
  }

  lemma ExtendLeadsOn(s: System, p: nat)
    requires InPhase(s, p, Fetched)
    ensures Nearer(s, DoExtend(s, p), p)
  {
    hide LongLease, VisibilityMs, Leased, Get;
  }

  lemma TrackLeadsOn(s: System, p: nat)
    requires InPhase(s, p, Screened)
    ensures Nearer(s, DoTrack(s, p), p)
  {
    hide Rivals;
  }

  lemma CheckLeadsOn(s: System, p: nat)
    requires p in s.attempts
    ensures s.attempts[p].phase == Loaded ==> Nearer(s, DoScreen(s, p, false), p)
    ensures s.attempts[p].phase == Tracked ==> Nearer(s, DoRecheck(s, p, false), p)
  {
  }

  lemma {:induction false} UnwrittenOverwrites(s: System, row: Task, p: nat)
    requires Reachable(s) && Stands(s, row) && p in s.attempts && Unwritten(s.attempts[p].phase)
    requires Behind(row, s.attempts[p].task)
    ensures CanOverwrite(s, row)
    decreases Distance(s.attempts[p].phase)
  {
    hide Reachable, Enabled, Apply, CanOverwrite;
    if s.attempts[p].phase == Cleared {
      ClearedOverwrites(s, row, p);
    } else {
      var e := Proceeds(s, p);
      NextReachable(s, e);
      UnwrittenOverwrites(Apply(s, e), row, p);
      OneBefore(s, row, e);
    }
  }

  // ----- a copy in ready -----

  lemma FreeNumber(s: System) returns (p: nat)
    ensures p !in s.attempts
  {
    p := Above(s.attempts.Keys);
  }

  lemma {:induction false} Above(ps: set<nat>) returns (p: nat)
    ensures forall q | q in ps :: q < p
  {
    p := 0;
    if ps != {} {
      var q :| q in ps;
      var rest := Above(ps - {q});
      p := if q < rest then rest else q + 1;
      assert forall x | x in ps :: x == q || x in ps - {q};
    }
  }

  lemma {:induction false} LeastExists<M>(z: map<M, int>, candidates: set<M>) returns (m: M)
    requires candidates != {} && candidates <= z.Keys
    ensures m in candidates && forall x | x in candidates :: z[m] <= z[x]
  {
    m :| m in candidates;
    var rest := candidates - {m};
    if rest != {} {
      var least := LeastExists(z, rest);
      m := if z[least] < z[m] then least else m;
    }
  }

  lemma DequeuedReady(redis: map<string, Queue>, name: string, t: Task, deadline: int)
    ensures Get(Dequeued(redis, name, t, deadline), name).ready == Get(redis, name).ready - {t}
  {
    hide InflightName, LeaseName;
  }

  lemma Fetches(s: System, name: string, t: Task) returns (e: Event, p: nat)
    requires IsLeast(Get(s.redis, name).ready, t)
    ensures Enabled(s, e)
    ensures
      var r := Apply(s, e);
      && r.rows == s.rows && InPhase(r, p, Fetched) && r.attempts[p].task == t
      && Get(r.redis, name).ready == Get(s.redis, name).ready - {t}
  {
    hide Dequeued;
    p := FreeNumber(s);
    e := Fetch(p, "", name, t, 0);
    DequeuedReady(s.redis, name, t, DEFAULT_VISIBILITY / NS_PER_MS);
  }

  /** Other copies of the queue may have to be dequeued first. */
  lemma {:induction false} ReadyOverwrites(s: System, row: Task, name: string, t: Task)
    requires Reachable(s) && Stands(s, row) && t in Get(s.redis, name).ready && Behind(row, t)
    ensures CanOverwrite(s, row)
    decreases |Get(s.redis, name).ready|
  {
    hide Reachable, Enabled, Apply, CanOverwrite, Get;
    var ready := Get(s.redis, name).ready;
    var least := LeastExists(ready, ready.Keys);
    var e, p := Fetches(s, name, least);
    NextReachable(s, e);
    if least == t {
      UnwrittenOverwrites(Apply(s, e), row, p);
    } else {
      SmallerWithout(ready, least);
      ReadyOverwrites(Apply(s, e), row, name, t);
    }
    OneBefore(s, row, e);
  }

  lemma SmallerWithout<K, V>(m: map<K, V>, k: K)
    requires k in m
    ensures |m - {k}| < |m|
  {
    assert m.Keys - {k} == (m - {k}).Keys;
  }

  // ----- a copy in delayed or inflight -----

  lemma {:induction false} GreatestExists<M>(z: map<M, int>, candidates: set<M>) returns (m: M)
    requires candidates != {} && candidates <= z.Keys
    ensures m in candidates && forall x | x in candidates :: z[x] <= z[m]
  {
    var first :| first in candidates;
    m := first;
    if candidates != {first} {
      var greatest := GreatestExists(z, candidates - {first});
      m := if z[greatest] > z[first] then greatest else first;
      assert forall x | x in candidates :: x == first || x in candidates - {first};
    }
  }

  /** Members in the order of their scores. */
  lemma {:induction false} Sorted<M>(z: map<M, int>, ms: set<M>) returns (r: seq<M>)
    requires ms <= z.Keys
    ensures Distinct(r) && |r| == |ms| && (forall m :: m in r <==> m in ms)
    ensures forall i, j | 0 <= i < j < |r| :: r[i] in z && r[j] in z && z[r[i]] <= z[r[j]]
  {
    r := [];
    if ms != {} {
      var m := GreatestExists(z, ms);
      var rest := Sorted(z, ms - {m});
      r := rest + [m];
      assert forall i | 0 <= i < |rest| :: rest[i] in ms - {m};
    }
  }

  lemma RangeExists<M>(z: map<M, int>, now: int, batch: int) returns (r: seq<M>)
    ensures IsRange(z, now, batch, r)
  {
    var due := Due(z, now);
    var all := Sorted(z, due);
    var n := Limit(batch, |due|);
    r := all[..n];
    forall i | 0 <= i < |r| ensures r[i] in z && z[r[i]] <= now {
      assert r[i] == all[i] && all[i] in due;
    }
    forall m, i | m in due && m !in r && 0 <= i < |r| ensures z[r[i]] <= z[m] {
      var j :| 0 <= j < |all| && all[j] == m;
      assert j >= n;
    }
  }

  /** Taking a range that is not empty makes the set smaller. */
  lemma RangeShrinks<M>(z: map<M, int>, now: int, batch: int, r: seq<M>, m: M)
    requires IsRange(z, now, batch, r) && batch != 0 && m in z && z[m] <= now
    ensures |z - Elements(r)| < |z|
  {
    assert m in Due(z, now);
    assert r[0] in Elements(r) && r[0] in z;
    assert (z - Elements(r)).Keys == z.Keys - Elements(r);
    ProperSubsetSize(z.Keys - Elements(r), z.Keys);
  }

  lemma PromotesSome(s: System, name: string, t: Task) returns (e: Event)
    requires t in Get(s.redis, name).delayed
    ensures Enabled(s, e)
    ensures
      var r := Apply(s, e);
      && r.rows == s.rows && |Get(r.redis, name).delayed| < |Get(s.redis, name).delayed|
      && (t in Get(r.redis, name).delayed || t in Get(r.redis, name).ready)
  {
    hide IsRange, Stamped;
    var q := Get(s.redis, name);
    var ts := RangeExists(q.delayed, q.delayed[t], BATCH);
    RangeShrinks(q.delayed, q.delayed[t], BATCH, ts, t);
    e := Promote(name, q.delayed[t], BATCH, ts);
  }

  lemma {:induction false} DelayedOverwrites(s: System, row: Task, name: string, t: Task)
    requires Reachable(s) && Stands(s, row) && t in Get(s.redis, name).delayed && Behind(row, t)
    ensures CanOverwrite(s, row)
    decreases |Get(s.redis, name).delayed|
  {
    hide Reachable, Enabled, Apply, CanOverwrite, Get;
    var e := PromotesSome(s, name, t);
    NextReachable(s, e);
    if t in Get(Apply(s, e).redis, name).ready {
      ReadyOverwrites(Apply(s, e), row, name, t);
    } else {
      DelayedOverwrites(Apply(s, e), row, name, t);
    }
    OneBefore(s, row, e);
  }

  lemma ReclaimsSome(s: System, name: string, id: string) returns (e: Event)
    requires id in Get(s.redis, name).lease && id in Get(s.redis, name).inflight
    ensures Enabled(s, e)
    ensures
      var r := Apply(s, e);
      var before, after := Get(s.redis, name), Get(r.redis, name);
      && r.rows == s.rows && r.snapshots == s.snapshots && |after.lease| < |before.lease|
      && ((id in after.lease && id in after.inflight && after.inflight[id] == before.inflight[id])
          || (id !in after.inflight && before.inflight[id] in after.ready))
  {
    hide IsRange, Reclaimed, Enabled, Apply, Get;
    var q := Get(s.redis, name);
    var ids := RangeExists(q.lease, q.lease[id], BATCH);
    RangeShrinks(q.lease, q.lease[id], BATCH, ids, id);
    e := Reclaim(name, q.lease[id], BATCH, ids);
    ReclaimStep(s, name, q.lease[id], ids);
    ReclaimedOrNot(q, Elements(ids), id);
  }

  lemma ReclaimStep(s: System, name: string, now: int, ids: seq<string>)
    requires IsRange(Get(s.redis, name).lease, now, BATCH, ids)
    ensures
      var e, q := Reclaim(name, now, BATCH, ids), Reclaimed(Get(s.redis, name), Elements(ids));
      Enabled(s, e) && Apply(s, e) == OnQueue(s, name, q) && Get(Apply(s, e).redis, name) == q
  {
    hide IsRange, Reclaimed;
  }

  lemma ReclaimedOrNot(q: Queue, ids: set<string>, id: string)
    requires id in q.lease && id in q.inflight
    ensures
      var r := Reclaimed(q, ids);
      && r.lease == q.lease - ids
      && ((id in r.lease && id in r.inflight && r.inflight[id] == q.inflight[id])
          || (id !in r.inflight && q.inflight[id] in r.ready))
  {
    hide Scores;
    ReclaimKeepsCopies(q, ids);
    if id in ids {
      assert q.inflight[id] in Stranded(q, ids);
    }
  }

  lemma {:induction false} InflightOverwrites(s: System, row: Task, name: string, id: string)
    requires Reachable(s) && Stands(s, row) && id in Get(s.redis, name).inflight && id in Get(s.redis, name).lease
    requires Behind(row, Get(s.redis, name).inflight[id])
    ensures CanOverwrite(s, row)
    decreases |Get(s.redis, name).lease|
  {
    hide Reachable, Enabled, Apply, CanOverwrite, Get;
    var e := ReclaimsSome(s, name, id);
    NextReachable(s, e);
    if id in Get(Apply(s, e).redis, name).inflight {
      InflightOverwrites(Apply(s, e), row, name, id);
    } else {
      ReadyOverwrites(Apply(s, e), row, name, Get(s.redis, name).inflight[id]);
    }
    OneBefore(s, row, e);
  }

  // ----- a copy in somebody's hand -----

  lemma NackRequeues(s: System, p: nat)
    requires InPhase(s, p, Nacking) && s.attempts[p].task.CanRetry()
    ensures
      var t, r := s.attempts[p].task, Apply(s, Nack(p, 0, 0, false));
      && Enabled(s, Nack(p, 0, 0, false)) && r.rows == s.rows
      && (t in Get(r.redis, t.queue).ready || t in Get(r.redis, t.queue).delayed)
  {
    hide Enabled, Apply, Exit, Nacked, RetryAt;
    var t := s.attempts[p].task;
    var at := RetryAt(t, 0, 0);
    NackStep(s, p);
    var q := Nacked(Get(s.redis, t.queue), t, at);
    NackedHas(Get(s.redis, t.queue), t, at);
    var put := Issue(OnQueue(s, t.queue, q), t);
    ExitFrame(if t.retryBackoff > 0 then Schedule(put, t, at) else put, p);
  }

  lemma NackStep(s: System, p: nat)
    requires InPhase(s, p, Nacking)
    ensures Enabled(s, Nack(p, 0, 0, false))
    ensures Apply(s, Nack(p, 0, 0, false)) == DoNack(s, p, RetryAt(s.attempts[p].task, 0, 0), false)
  {
    hide DoNack, RetryAt;
  }

  lemma NackedHas(q: Queue, t: Task, at: int)
    requires t.CanRetry()
    ensures t in Nacked(q, t, at).ready || t in Nacked(q, t, at).delayed
  {
  }

  lemma NackingOverwrites(s: System, row: Task, p: nat)
    requires Reachable(s) && Stands(s, row) && InPhase(s, p, Nacking) && Behind(row, s.attempts[p].task)
    ensures CanOverwrite(s, row)
  {
    hide Reachable, Enabled, Apply, CanOverwrite, Get, WellShaped, Recorded;
    ReachableIs(s);
    AttemptIs(s, p);
    NackRequeues(s, p);
    var e, t := Nack(p, 0, 0, false), s.attempts[p].task;
    NextReachable(s, e);
    if t in Get(Apply(s, e).redis, t.queue).ready {
      ReadyOverwrites(Apply(s, e), row, t.queue, t);
    } else {
      DelayedOverwrites(Apply(s, e), row, t.queue, t);
    }
    OneBefore(s, row, e);
  }

  lemma AttemptOverwrites(s: System, row: Task, p: nat)
    requires Reachable(s) && Stands(s, row) && p in s.attempts && Menaces(row, s.attempts[p])
    ensures CanOverwrite(s, row)
  {
    hide Reachable, CanOverwrite;
    match s.attempts[p].phase
    case Settling => SettlingOverwrites(s, row, p);
    case Handling => HandlingOverwrites(s, row, p);
    case Nacking => NackingOverwrites(s, row, p);
    case Fetched => UnwrittenOverwrites(s, row, p);
    case Loaded => UnwrittenOverwrites(s, row, p);
    case Screened => UnwrittenOverwrites(s, row, p);
    case Tracked => UnwrittenOverwrites(s, row, p);
    case Cleared => UnwrittenOverwrites(s, row, p);
  }

  lemma SubmitterOverwrites(s: System, row: Task, t: Task)
    requires Reachable(s) && Stands(s, row) && t in s.submitting && Behind(row, t)
    ensures CanOverwrite(s, row)
  {
    hide Reachable, CanOverwrite;
    var e := Enqueue(t);
    assert Enabled(s, e);
    NextReachable(s, e);
    ReadyOverwrites(Apply(s, e), row, t.queue, t);
    OneBefore(s, row, e);
  }

  /** An inflight copy keeps compensation from queueing its own; reclaim takes it away first. */
  lemma {:induction false} SnapshotOverwrites(s: System, row: Task, t: Task)
    requires Reachable(s) && Stands(s, row) && t in s.snapshots && Behind(row, t)
    ensures CanOverwrite(s, row)
    decreases |Get(s.redis, t.queue).lease|
  {
    hide Reachable, CanOverwrite, WellShaped, Recorded, QueueOk, Enabled, Apply;
    var q := Get(s.redis, t.queue);
    if t.id in q.inflight {
      SnapshotAtHome(s, t);
      var e := ReclaimsSome(s, t.queue, t.id);
      NextReachable(s, e);
      SnapshotOverwrites(Apply(s, e), row, t);
      OneBefore(s, row, e);
    } else {
      var e := Compensate(t);
      CompensateQueues(s, t);
      NextReachable(s, e);
      ReadyOverwrites(Apply(s, e), row, t.queue, t);
      OneBefore(s, row, e);
    }
  }

  lemma CompensateQueues(s: System, t: Task)
    requires t in s.snapshots && t.id !in Get(s.redis, t.queue).inflight
    ensures Enabled(s, Compensate(t))
    ensures Apply(s, Compensate(t)).rows == s.rows && t in Get(Apply(s, Compensate(t)).redis, t.queue).ready
  {
  }

  lemma SnapshotAtHome(s: System, t: Task)
    requires Reachable(s) && t in s.snapshots && t.id in Get(s.redis, t.queue).inflight
    ensures t.id in Get(s.redis, t.queue).lease
  {
    hide Reachable, WellShaped, Recorded, QueueOk, Agrees;
    ReachableIs(s);
    FreshIs(s, t);
    QueueIs(s, t.queue);
    InflightIs(s.history.created, t.queue, Get(s.redis, t.queue), t.id);
    HomeAgrees(s.history.created, t.queue, Get(s.redis, t.queue), t.id);
  }

  lemma InflightIs(created: map<string, Task>, name: string, q: Queue, id: string)
    requires QueueOk(created, name, q) && id in q.inflight
    ensures InflightOk(created, name, q, id)
  {
    hide Good, InflightName, LeaseName, Agrees;
  }

  lemma CopyOverwrites(s: System, row: Task, name: string, t: Task)
    requires Reachable(s) && Stands(s, row) && t in Loose(Get(s.redis, name)) && Behind(row, t)
    ensures CanOverwrite(s, row)
  {
    hide Reachable, CanOverwrite, WellShaped, Recorded, QueueOk, Agrees, Get, Stands, Behind;
    var q := Get(s.redis, name);
    if t in q.ready {
      ReadyOverwrites(s, row, name, t);
    } else if t in q.delayed {
      DelayedOverwrites(s, row, name, t);
    } else {
      var id :| id in q.inflight && Agrees(q.inflight[id].queue) && q.inflight[id] == t;
      ReachableIs(s);
      QueueIs(s, name);
      InflightIs(s.history.created, name, q, id);
      InflightOverwrites(s, row, name, id);
    }
  }

  // ----- the theorem -----

  /** Whatever happens from here, the row stays as it is until it is cleaned up. */
  ghost predicate Final(s: System, row: Task) {
    forall es | Run(s, es).Some? && row.id in Run(s, es).value.rows :: Run(s, es).value.rows[row.id] == row
  }

  lemma ThreatOverwrites(s: System, row: Task)
    requires Reachable(s) && Stands(s, row) && Threatened(s, row)
    ensures CanOverwrite(s, row)
  {
    hide Reachable, CanOverwrite, Stands, Behind, Menaces, Loose, Get;
    if CopyWaits(s, row) {
      var name, t :| t in Loose(Get(s.redis, name)) && Behind(row, t);
      CopyOverwrites(s, row, name, t);
    } else if PoolHolds(s, row) {
      var t :| (t in s.submitting || t in s.snapshots) && Behind(row, t);
      if t in s.submitting {
        SubmitterOverwrites(s, row, t);
      } else {
        SnapshotOverwrites(s, row, t);
      }
    } else {
      var p :| p in s.attempts && Menaces(row, s.attempts[p]);
      AttemptOverwrites(s, row, p);
    }
  }

  /** A committed cancel is final, in every continuation of the run, if and only if no copy that can still be
      dequeued, no submitter, no compensation loop and no worker before its Running write holds the
      version before the cancelled row's, and no worker after it holds the row's own. */
  lemma CancelFinalIff(s: System, row: Task)
    requires Reachable(s) && Stands(s, row)
    ensures Final(s, row) <==> !Threatened(s, row)
  {
    hide Reachable, Threatened, Run, WellShaped, Recorded;
    if Threatened(s, row) {
      ThreatOverwrites(s, row);
      var es :| Run(s, es).Some? && Overwritten(Run(s, es).value, row.id);
      assert Run(s, es).value.rows[row.id] != row;
    } else {
      ReachableIs(s);
      RowIs(s, row.id);
      forall es | Run(s, es).Some? && row.id in Run(s, es).value.rows
        ensures Run(s, es).value.rows[row.id] == row
      {
        StaysSecure(s, row, es, Run(s, es).value);
        SecureIs(Run(s, es).value, row);
      }
    }
  }

  /** Once its own removal is done, a cancel is final if and only if nobody outside the queues holds the
      version that the canceller read. */
  lemma RemovedFinalIff(s: System, row: Task, c: nat)
    requires Reachable(s) && Stands(s, row) && CancelIn(s, c, Removing) && s.cancellers[c].task.id == row.id
    ensures Final(DoCancelRemove(s, c, false), row) <==> !PoolHolds(s, row) && !WorkerHolds(s, row)
  {
    hide Reachable, WellShaped, Recorded, Menaces, Final, Loose, Removed, Get;
    var r := DoCancelRemove(s, c, false);
    ReachableIs(s);
    forall name, t | t in Loose(Get(r.redis, name)) ensures !Behind(row, t) {
      if t.id == row.id {
        RemovedAll(s, c, name, t);
      }
    }
    assert !CopyWaits(r, row);
    assert Enabled(s, CancelRemove(c, false)) && Apply(s, CancelRemove(c, false)) == r;
    NextReachable(s, CancelRemove(c, false));
    CancelFinalIff(r, row);
  }

  lemma RemovedAll(s: System, c: nat, name: string, t: Task)
    requires WellShaped(s) && c in s.cancellers && t.id == s.cancellers[c].task.id
    ensures t !in Loose(Get(DoCancelRemove(s, c, false).redis, name))
  {
    hide WellShaped, QueueOk, Agrees, InflightName;
    var x := s.cancellers[c].task;
    CancellerIs(s, c);
    QueueIs(s, name);
    LooseIsHome(s.history.created, name, Get(s.redis, name), t);
    LooseLess(Get(s.redis, name), x.id, 0);
    NoneRemoved(Get(s.redis, name), x.id, t);
  }

  lemma LooseIsHome(created: map<string, Task>, name: string, q: Queue, t: Task)
    requires QueueOk(created, name, q)
    ensures t in Loose(q) ==> Known(created, t) && t.queue == name
    ensures forall id | id in q.inflight :: q.inflight[id].id == id
  {
    hide Agrees, InflightName, LeaseName;
    if t in Loose(q) && t !in q.ready && t !in q.delayed {
      var id :| id in q.inflight && Agrees(q.inflight[id].queue) && q.inflight[id] == t;
      assert InflightOk(created, name, q, id);
      NamesApart(t.queue);
    }
  }

  lemma NoneRemoved(q: Queue, id: string, t: Task)
    requires (forall k | k in q.inflight :: q.inflight[k].id == k) && t.id == id
    ensures t !in Loose(Removed(q, id))
  {
    hide Agrees;
  }
}
