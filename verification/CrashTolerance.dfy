/** Why crash redelivery still lands its final write. In calm runs (no cancel, one copy per task, no
    store error, a handler for every task, queue names that agree with their derived keys, leases that
    expire only after their worker died, workers that die only before their final write) a queued copy is at most
    one version behind its row, and the final state write of every surviving attempt succeeds, however many
    attempts died before it. */
module CrashTolerance {
  import opened Entities
  import opened SortedSets
  import opened Keys
  import opened Queues
  import opened Timing
  import opened TaskTable
  import opened Protocol
  import opened Shape
  import opened Frames

  ghost predicate Attended(s: System, id: string) {
    exists p :: p in s.attempts && s.attempts[p].task.id == id
  }

  ghost predicate Calm(s: System, e: Event) {
    match e
    case Create(t, _) => Agrees(t.queue)
    case CancelRead(_, _) => false
    case NoHandler(_) => false
    case Enqueue(t) => (t.id, 1) !in s.history.issued
    case EnqueueDelayed(t, _) => (t.id, 1) !in s.history.issued
    case Compensate(t) => (t.id, 1) !in s.history.issued
    case Start(_, fault) => fault == NoFault
    case Settle(_, fault) => fault == NoFault
    case Ack(_, lost) => !lost
    case Nack(_, _, _, lost) => !lost
    case Reclaim(_, _, _, ids) => forall id | id in ids :: !Attended(s, id)
    case Crash(node) => forall p | p in s.attempts && s.attempts[p].node == node :: !Settled(s.attempts[p])
    case _ => true
  }

  /** The final write is done, the broker call is next. */
  predicate Settled(a: Attempt) {
    a.phase == Acking || a.phase == Nacking
  }

  /** The copy has the version of its unfinished row, or is one behind a row that a worker has set to running. */
  predicate CopyFits(rows: map<string, Task>, t: Task) {
    && t.id in rows && !rows[t.id].IsTerminal()
    && (rows[t.id].version == t.version || (rows[t.id].version == t.version + 1 && rows[t.id].state == Running))
  }

  // ----- the invariant -----

  /** No two different copies of one task in the set. */
  predicate Unique(ts: set<Task>) {
    forall t, u | t in ts && u in ts && t.id == u.id :: t == u
  }

  predicate Apart(ts: set<Task>, us: set<Task>) {
    forall t, u | t in ts && u in us :: t.id != u.id
  }

  predicate Outside(ts: set<Task>, ids: set<string>) {
    forall t | t in ts :: t.id !in ids
  }

  predicate QueueSingle(q: Queue) {
    && Unique(q.ready.Keys) && Unique(q.delayed.Keys) && Apart(q.ready.Keys, q.delayed.Keys)
    && Outside(q.ready.Keys, q.inflight.Keys) && Outside(q.delayed.Keys, q.inflight.Keys)
  }

  predicate Holding(redis: map<string, Queue>, a: Attempt) {
    var q := Get(redis, a.copy.queue);
    a.copy.id in q.inflight && q.inflight[a.copy.id] == a.copy && a.task.id == a.copy.id
  }

  predicate RowFits(rows: map<string, Task>, a: Attempt) {
    var id := a.task.id;
    match a.phase
    case Acking => id in rows ==> rows[id].IsTerminal()
    case Nacking => id in rows && !rows[id].IsTerminal() && rows[id].version == a.task.version
    case Handling => id in rows && rows[id].state == Running && rows[id].version == a.task.version == a.copy.version + 1
    case Settling => id in rows && rows[id].state == Running && rows[id].version == a.task.version == a.copy.version + 1
    case _ => CopyFits(rows, a.copy)
  }

  ghost predicate Unissued(s: System, id: string)
    requires id in s.history.created
  {
    && id in s.rows && s.rows[id].version == 1 && !s.rows[id].IsTerminal() && !Attended(s, id)
    && (forall t | t in Copies(Get(s.redis, s.history.created[id].queue)) :: t.id != id)
  }

  ghost predicate Singles(s: System) {
    forall name | name in s.redis :: QueueSingle(s.redis[name])
  }

  ghost predicate WaitingFit(s: System) {
    && (forall name, t | name in s.redis && t in s.redis[name].ready :: CopyFits(s.rows, t))
    && (forall name, t | name in s.redis && t in s.redis[name].delayed :: CopyFits(s.rows, t))
  }

  ghost predicate InflightFit(s: System) {
    forall name, id | name in s.redis && id in s.redis[name].inflight && !Attended(s, id) ::
      CopyFits(s.rows, s.redis[name].inflight[id])
  }

  ghost predicate AttemptsFit(s: System) {
    && (forall p | p in s.attempts :: Holding(s.redis, s.attempts[p]) && RowFits(s.rows, s.attempts[p]))
    && (forall p, r | p in s.attempts && r in s.attempts && s.attempts[p].task.id == s.attempts[r].task.id :: p == r)
  }

  ghost predicate UnissuedFit(s: System) {
    forall id | id in s.history.created && (id, 1) !in s.history.issued :: Unissued(s, id)
  }

  ghost predicate Tidy(s: System) {
    && Singles(s) && WaitingFit(s) && InflightFit(s) && AttemptsFit(s) && UnissuedFit(s)
    && s.cancellers == map[] && NamesAgree(s.history.created)
  }

  // ----- one attempt moves, the queues stay -----

  predicate SameElsewhere(a: map<string, Task>, b: map<string, Task>, id: string) {
    && (forall x | x in a && x != id :: x in b && b[x] == a[x])
    && (forall x | x in b && x != id :: x in a)
  }

  /** The queue in which a task of this id can be. */
  lemma CopyIsHome(s: System, name: string)
    requires WellShaped(s) && NamesAgree(s.history.created) && name in s.redis
    ensures forall t | t in s.redis[name].ready :: t.id in s.history.created && s.history.created[t.id].queue == name
    ensures forall t | t in s.redis[name].delayed :: t.id in s.history.created && s.history.created[t.id].queue == name
    ensures forall id | id in s.redis[name].inflight ::
              s.redis[name].inflight[id].id == id && id in s.history.created && s.history.created[id].queue == name
  {
    hide AttemptsOk, RowsOk, CancellersOk, FreshOk, InflightName, LeaseName, Agrees;
    forall id | id in s.redis[name].inflight
      ensures s.redis[name].inflight[id].id == id && id in s.history.created && s.history.created[id].queue == name
    {
      assert InflightOk(s.history.created, name, s.redis[name], id);
      NamesApart(s.redis[name].inflight[id].queue);
    }
  }

  lemma HomeOf(s: System, p: nat)
    requires WellShaped(s) && p in s.attempts
    ensures
      var a := s.attempts[p];
      && a.copy.id in s.history.created && s.history.created[a.copy.id].queue == a.copy.queue && a.task.id == a.copy.id
  {
  }

  lemma HeldIsAlone(s: System, p: nat, name: string)
    requires WellShaped(s) && Tidy(s) && p in s.attempts && name in s.redis
    ensures forall t | t in s.redis[name].ready :: t.id != s.attempts[p].task.id
    ensures forall t | t in s.redis[name].delayed :: t.id != s.attempts[p].task.id
  {
    hide WellShaped, WaitingFit, InflightFit, UnissuedFit, RowFits;
    CopyIsHome(s, name);
    HomeOf(s, p);
    assert Holding(s.redis, s.attempts[p]);
    assert QueueSingle(s.redis[name]);
  }

  lemma StillAttended(s: System, r: System, p: nat, a: Attempt)
    requires p in s.attempts && r.attempts == s.attempts[p := a] && a.task.id == s.attempts[p].task.id
    ensures forall id :: Attended(r, id) <==> Attended(s, id)
  {
    forall id ensures Attended(r, id) <==> Attended(s, id) {
      if x :| x in s.attempts && s.attempts[x].task.id == id {
        assert x in r.attempts && r.attempts[x].task.id == id;
      }
      if x :| x in r.attempts && r.attempts[x].task.id == id {
        assert x in s.attempts && s.attempts[x].task.id == id;
      }
    }
  }

  lemma HeldIsIssued(s: System, p: nat)
    requires WellShaped(s) && Tidy(s) && p in s.attempts
    ensures (s.attempts[p].task.id, 1) in s.history.issued
  {
    hide WellShaped, Singles, WaitingFit, InflightFit, AttemptsFit, Copies;
    HomeOf(s, p);
    assert Attended(s, s.attempts[p].task.id);
  }

  /** Attempt p moves and writes at most its own row. */
  lemma TidyMove(s: System, r: System, p: nat, a: Attempt)
    requires WellShaped(s) && Tidy(s) && p in s.attempts
    requires a.copy == s.attempts[p].copy && a.task.id == s.attempts[p].task.id
    requires r.redis == s.redis && r.attempts == s.attempts[p := a] && r.cancellers == s.cancellers
    requires r.history.created == s.history.created && r.history.issued == s.history.issued
    requires SameElsewhere(s.rows, r.rows, a.task.id) && RowFits(r.rows, a)
    ensures Tidy(r)
  {
    hide WellShaped, QueueSingle;
    StillAttended(s, r, p, a);
    HeldIsIssued(s, p);
    hide Attended, Copies;
    assert Singles(r);
    MovedWaiting(s, r, p);
    MovedInflight(s, r, p);
    MovedAttempts(s, r, p, a);
    MovedUnissued(s, r, p);
  }

  lemma MovedWaiting(s: System, r: System, p: nat)
    requires WellShaped(s) && Tidy(s) && p in s.attempts
    requires r.redis == s.redis && SameElsewhere(s.rows, r.rows, s.attempts[p].task.id)
    ensures WaitingFit(r)
  {
    hide WellShaped, Singles, InflightFit, AttemptsFit, UnissuedFit;
    forall name, t | name in r.redis && (t in r.redis[name].ready || t in r.redis[name].delayed)
      ensures CopyFits(r.rows, t)
    {
      HeldIsAlone(s, p, name);
      assert CopyFits(s.rows, t);
    }
  }

  lemma MovedInflight(s: System, r: System, p: nat)
    requires WellShaped(s) && Tidy(s) && p in s.attempts
    requires r.redis == s.redis && SameElsewhere(s.rows, r.rows, s.attempts[p].task.id)
    requires forall id :: Attended(r, id) <==> Attended(s, id)
    ensures InflightFit(r)
  {
    hide WellShaped, Singles, WaitingFit, AttemptsFit, UnissuedFit;
    forall name, id | name in r.redis && id in r.redis[name].inflight && !Attended(r, id)
      ensures CopyFits(r.rows, r.redis[name].inflight[id])
    {
      CopyIsHome(s, name);
      assert id != s.attempts[p].task.id;
      assert CopyFits(s.rows, s.redis[name].inflight[id]);
    }
  }

  lemma RowFitsElsewhere(before: map<string, Task>, after: map<string, Task>, id: string, a: Attempt)
    requires SameElsewhere(before, after, id) && a.task.id != id && a.copy.id == a.task.id && RowFits(before, a)
    ensures RowFits(after, a)
  {
  }

  lemma MovedAttempts(s: System, r: System, p: nat, a: Attempt)
    requires Tidy(s) && p in s.attempts && a.copy == s.attempts[p].copy && a.task.id == s.attempts[p].task.id
    requires r.redis == s.redis && r.attempts == s.attempts[p := a] && SameElsewhere(s.rows, r.rows, a.task.id)
    requires RowFits(r.rows, a)
    ensures AttemptsFit(r)
  {
    hide Singles, WaitingFit, InflightFit, UnissuedFit, RowFits, SameElsewhere, CopyFits;
    forall x | x in r.attempts ensures Holding(r.redis, r.attempts[x]) && RowFits(r.rows, r.attempts[x]) {
      if x != p {
        RowFitsElsewhere(s.rows, r.rows, a.task.id, s.attempts[x]);
      }
    }
  }

  lemma MovedUnissued(s: System, r: System, p: nat)
    requires Tidy(s) && p in s.attempts && r.redis == s.redis && SameElsewhere(s.rows, r.rows, s.attempts[p].task.id)
    requires r.history.created == s.history.created && r.history.issued == s.history.issued
    requires (s.attempts[p].task.id, 1) in s.history.issued
    requires forall id :: Attended(r, id) <==> Attended(s, id)
    ensures UnissuedFit(r)
  {
    hide Singles, WaitingFit, InflightFit, AttemptsFit, Copies, Attended;
    forall id | id in r.history.created && (id, 1) !in r.history.issued ensures Unissued(r, id) {
      assert Unissued(s, id);
    }
  }

  lemma SelfElsewhere(rows: map<string, Task>, id: string)
    ensures SameElsewhere(rows, rows, id)
  {
  }

  lemma AttemptFits(s: System, p: nat)
    requires Tidy(s) && p in s.attempts
    ensures Holding(s.redis, s.attempts[p]) && RowFits(s.rows, s.attempts[p])
  {
    hide Singles, WaitingFit, InflightFit, UnissuedFit, Holding, RowFits;
  }

  lemma TidyScreen(s: System, p: nat, readable: bool)
    requires WellShaped(s) && Tidy(s) && p in s.attempts && s.attempts[p].phase == Loaded
    ensures Tidy(DoScreen(s, p, readable))
  {
    hide WellShaped, Tidy, Holding;
    var a := s.attempts[p];
    AttemptFits(s, p);
    HomeOf(s, p);
    SelfElsewhere(s.rows, a.task.id);
    TidyMove(s, DoScreen(s, p, readable), p, a.(phase := Screened));
  }

  lemma TidyTrack(s: System, p: nat)
    requires WellShaped(s) && Tidy(s) && p in s.attempts && s.attempts[p].phase == Screened
    ensures Tidy(DoTrack(s, p))
  {
    hide WellShaped, Tidy, Holding, Rivals;
    var a := s.attempts[p];
    AttemptFits(s, p);
    HomeOf(s, p);
    SelfElsewhere(s.rows, a.task.id);
    TidyMove(s, DoTrack(s, p), p, a.(phase := Tracked, tracked := true));
  }

  lemma TidyRecheck(s: System, p: nat, readable: bool)
    requires WellShaped(s) && Tidy(s) && p in s.attempts && s.attempts[p].phase == Tracked
    ensures Tidy(DoRecheck(s, p, readable))
  {
    hide WellShaped, Tidy, Holding;
    var a := s.attempts[p];
    AttemptFits(s, p);
    HomeOf(s, p);
    SelfElsewhere(s.rows, a.task.id);
    TidyMove(s, DoRecheck(s, p, readable), p, a.(phase := Cleared));
  }

  lemma WriteElsewhere(s: System, t: Task, fault: Fault)
    ensures SameElsewhere(s.rows, Write(s, t, fault).rows, t.id)
  {
    hide Write, LockHolds, Commits;
    WriteFrame(s, t, fault);
  }

  /** The Running write lifts the row to the worker's version, or finds it already there. */
  lemma TidyStart(s: System, p: nat)
    requires WellShaped(s) && Tidy(s) && p in s.attempts && s.attempts[p].phase == Cleared
    ensures Tidy(DoStart(s, p, NoFault))
  {
    hide WellShaped, Tidy, Holding, Good, Write, SameElsewhere;
    var a := s.attempts[p];
    AttemptFits(s, p);
    AttemptIs(s, p);
    var t := a.task.(state := Running);
    WriteElsewhere(s, t, NoFault);
    var r := DoStart(s, p, NoFault);
    WriteFrame(s, t, NoFault);
    TidyMove(s, r, p, r.attempts[p]);
  }

  lemma TidyReturn(s: System, p: nat, ok: bool, shutdown: bool, readable: bool)
    requires WellShaped(s) && Tidy(s) && p in s.attempts && s.attempts[p].phase == Handling
    ensures Tidy(DoReturn(s, p, ok, shutdown, readable))
  {
    hide WellShaped, Tidy, Holding;
    var a := s.attempts[p];
    AttemptFits(s, p);
    SelfElsewhere(s.rows, a.task.id);
    var r := DoReturn(s, p, ok, shutdown, readable);
    TidyMove(s, r, p, r.attempts[p]);
  }

  lemma TidySettle(s: System, p: nat)
    requires WellShaped(s) && Tidy(s) && p in s.attempts && s.attempts[p].phase == Settling
    ensures Tidy(DoSettle(s, p, NoFault))
  {
    hide WellShaped, Tidy, Holding, Good, Write, SameElsewhere;
    var a := s.attempts[p];
    AttemptFits(s, p);
    AttemptIs(s, p);
    WriteElsewhere(s, a.task, NoFault);
    WriteFrame(s, a.task, NoFault);
    var r := DoSettle(s, p, NoFault);
    TidyMove(s, r, p, r.attempts[p]);
  }

  lemma TidyDeliver(s: System, node: string, id: string)
    requires WellShaped(s) && Tidy(s)
    ensures Tidy(DoDeliver(s, node, id))
  {
    hide WellShaped, Tidy, Holding;
    if (node, id) in s.cancels && s.cancels[(node, id)] in s.attempts {
      var p := s.cancels[(node, id)];
      AttemptFits(s, p);
      SelfElsewhere(s.rows, s.attempts[p].task.id);
      TidyMove(s, DoDeliver(s, node, id), p, s.attempts[p].(cancelled := true));
    } else {
      TidyRelabel(s, DoDeliver(s, node, id));
    }
  }

  /** Changes the invariant does not look at. */
  lemma TidyRelabel(s: System, r: System)
    requires Tidy(s) && r.redis == s.redis && r.rows == s.rows
    requires r.attempts == s.attempts && r.cancellers == s.cancellers
    requires r.history.created == s.history.created && r.history.issued == s.history.issued
    ensures Tidy(r)
  {
    hide QueueSingle, CopyFits, Holding, RowFits, Copies;
    assert forall id :: Attended(r, id) <==> Attended(s, id);
    hide Attended;
    forall id | id in r.history.created && (id, 1) !in r.history.issued ensures Unissued(r, id) {
      assert Unissued(s, id);
    }
  }

  // ----- the copy of one task moves within its queue -----

  predicate Others(a: set<Task>, b: set<Task>, id: string) {
    && (forall t | t in a && t.id != id :: t in b)
    && (forall t | t in b && t.id != id :: t in a)
  }

  predicate OthersInflight(a: map<string, Task>, b: map<string, Task>, id: string) {
    && (forall x | x in a && x != id :: x in b && b[x] == a[x])
    && (forall x | x in b && x != id :: x in a)
  }

  /** Copies of tasks other than id stay where they are. */
  predicate SameOthers(a: Queue, b: Queue, id: string) {
    && Others(a.ready.Keys, b.ready.Keys, id) && Others(a.delayed.Keys, b.delayed.Keys, id)
    && OthersInflight(a.inflight, b.inflight, id)
  }

  predicate AtMostOne(ts: set<Task>, id: string) {
    forall t, u | t in ts && u in ts && t.id == u.id == id :: t == u
  }

  predicate Free(ts: set<Task>, id: string) {
    forall t | t in ts :: t.id != id
  }

  /** Where the copies of id are afterwards: in at most one place. */
  predicate OnlyOne(q: Queue, id: string) {
    && AtMostOne(q.ready.Keys, id) && AtMostOne(q.delayed.Keys, id)
    && (Free(q.ready.Keys, id) || Free(q.delayed.Keys, id))
    && (id in q.inflight ==> Free(q.ready.Keys, id) && Free(q.delayed.Keys, id) && q.inflight[id].id == id)
  }

  lemma UniqueAgain(a: set<Task>, b: set<Task>, id: string)
    requires Unique(a) && Others(a, b, id) && AtMostOne(b, id)
    ensures Unique(b)
  {
  }

  lemma ApartAgain(a: set<Task>, b: set<Task>, c: set<Task>, d: set<Task>, id: string)
    requires Apart(a, c) && Others(a, b, id) && Others(c, d, id) && (Free(b, id) || Free(d, id))
    ensures Apart(b, d)
  {
  }

  lemma OutsideAgain(a: set<Task>, b: set<Task>, m: map<string, Task>, n: map<string, Task>, id: string)
    requires Outside(a, m.Keys) && Others(a, b, id) && OthersInflight(m, n, id) && (id in n ==> Free(b, id))
    ensures Outside(b, n.Keys)
  {
  }

  lemma SingleAgain(a: Queue, b: Queue, id: string)
    requires QueueSingle(a) && SameOthers(a, b, id) && OnlyOne(b, id)
    ensures QueueSingle(b)
  {
    hide Unique, Apart, Outside, Others, OthersInflight, AtMostOne, Free;
    UniqueAgain(a.ready.Keys, b.ready.Keys, id);
    UniqueAgain(a.delayed.Keys, b.delayed.Keys, id);
    ApartAgain(a.ready.Keys, b.ready.Keys, a.delayed.Keys, b.delayed.Keys, id);
    OutsideAgain(a.ready.Keys, b.ready.Keys, a.inflight, b.inflight, id);
    OutsideAgain(a.delayed.Keys, b.delayed.Keys, a.inflight, b.inflight, id);
  }

  ghost predicate SameAttempts(s: System, r: System, id: string) {
    && (forall x | x in s.attempts && s.attempts[x].task.id != id :: x in r.attempts && r.attempts[x] == s.attempts[x])
    && (forall x | x in r.attempts && r.attempts[x].task.id != id :: x in s.attempts && s.attempts[x] == r.attempts[x])
  }

  ghost predicate TaskFits(s: System, name: string, id: string) {
    var q := Get(s.redis, name);
    && (forall t | t in q.ready && t.id == id :: CopyFits(s.rows, t))
    && (forall t | t in q.delayed && t.id == id :: CopyFits(s.rows, t))
    && (id in q.inflight && !Attended(s, id) ==> CopyFits(s.rows, q.inflight[id]))
    && (forall p | p in s.attempts && s.attempts[p].task.id == id ::
          Holding(s.redis, s.attempts[p]) && RowFits(s.rows, s.attempts[p]))
    && (forall p, x | p in s.attempts && x in s.attempts && s.attempts[p].task.id == s.attempts[x].task.id == id ::
          p == x)
  }

  lemma OthersAttended(s: System, r: System, id: string)
    requires SameAttempts(s, r, id)
    ensures forall x | x != id :: Attended(s, x) <==> Attended(r, x)
  {
  }

  lemma GetPut(redis: map<string, Queue>, name: string, q: Queue, n: string)
    ensures Get(redis[name := q], n) == if n == name then q else Get(redis, n)
  {
  }

  /** The general step of one task: its queue, its attempts and whether it is issued may change. */
  lemma TidyTask(s: System, r: System, name: string, q: Queue, id: string)
    requires WellShaped(s) && Tidy(s) && id in s.history.created && s.history.created[id].queue == name
    requires r.redis == s.redis[name := q] && r.rows == s.rows && r.cancellers == s.cancellers
    requires r.history.created == s.history.created && s.history.issued <= r.history.issued
    requires forall k | k in r.history.issued :: k in s.history.issued || k.0 == id
    requires SameOthers(Get(s.redis, name), q, id) && OnlyOne(q, id) && SameAttempts(s, r, id)
    requires TaskFits(r, name, id) && (id, 1) in r.history.issued
    ensures Tidy(r)
  {
    hide WellShaped, QueueSingle, OnlyOne, SameOthers, SameAttempts, TaskFits, Attended, Singles, WaitingFit,
         InflightFit, AttemptsFit, UnissuedFit, Holding, RowFits, CopyFits, Get;
    TaskSingles(s, r, name, q, id);
    OthersAttended(s, r, id);
    TaskWaiting(s, r, name, q, id);
    TaskInflight(s, r, name, q, id);
    TaskAttempts(s, r, name, q, id);
    if id in q.inflight {
      OneKeyed(q, id);
    }
    TaskUnissued(s, r, name, q, id);
  }

  lemma OneKeyed(q: Queue, id: string)
    requires OnlyOne(q, id) && id in q.inflight
    ensures q.inflight[id].id == id
  {
  }

  lemma QueueIsSingle(s: System, name: string)
    requires Tidy(s)
    ensures QueueSingle(Get(s.redis, name))
  {
    hide WaitingFit, InflightFit, AttemptsFit, UnissuedFit;
  }

  lemma TaskSingles(s: System, r: System, name: string, q: Queue, id: string)
    requires Tidy(s) && r.redis == s.redis[name := q] && SameOthers(Get(s.redis, name), q, id) && OnlyOne(q, id)
    ensures Singles(r)
  {
    hide WaitingFit, InflightFit, AttemptsFit, UnissuedFit, QueueSingle, SameOthers, OnlyOne;
    QueueIsSingle(s, name);
    SingleAgain(Get(s.redis, name), q, id);
  }

  lemma TaskWaiting(s: System, r: System, name: string, q: Queue, id: string)
    requires WellShaped(s) && Tidy(s) && r.redis == s.redis[name := q] && r.rows == s.rows
    requires SameOthers(Get(s.redis, name), q, id) && TaskFits(r, name, id)
    ensures WaitingFit(r)
  {
    hide WellShaped, Singles, InflightFit, AttemptsFit, UnissuedFit, CopyFits, Holding, RowFits;
  }

  lemma TaskInflight(s: System, r: System, name: string, q: Queue, id: string)
    requires WellShaped(s) && Tidy(s) && id in s.history.created && s.history.created[id].queue == name
    requires r.redis == s.redis[name := q] && r.rows == s.rows
    requires SameOthers(Get(s.redis, name), q, id) && TaskFits(r, name, id)
    requires forall x | x != id :: Attended(s, x) <==> Attended(r, x)
    ensures InflightFit(r)
  {
    hide WellShaped, Singles, WaitingFit, AttemptsFit, UnissuedFit, CopyFits, Holding, RowFits, Attended;
    forall n, x | n in r.redis && x in r.redis[n].inflight && !Attended(r, x)
      ensures CopyFits(r.rows, r.redis[n].inflight[x])
    {
      if n != name {
        CopyIsHome(s, n);
      }
    }
  }

  lemma TaskAttempts(s: System, r: System, name: string, q: Queue, id: string)
    requires WellShaped(s) && Tidy(s) && r.redis == s.redis[name := q] && r.rows == s.rows
    requires SameOthers(Get(s.redis, name), q, id) && TaskFits(r, name, id) && SameAttempts(s, r, id)
    ensures AttemptsFit(r)
  {
    hide WellShaped, Singles, WaitingFit, InflightFit, UnissuedFit, RowFits, CopyFits;
    forall x | x in r.attempts ensures Holding(r.redis, r.attempts[x]) && RowFits(r.rows, r.attempts[x]) {
      if r.attempts[x].task.id != id {
        AttemptFits(s, x);
        GetPut(s.redis, name, q, r.attempts[x].copy.queue);
      }
    }
  }

  lemma TaskUnissued(s: System, r: System, name: string, q: Queue, id: string)
    requires WellShaped(s) && Tidy(s) && r.redis == s.redis[name := q] && r.rows == s.rows
    requires r.history.created == s.history.created
    requires s.history.issued <= r.history.issued && (id, 1) in r.history.issued
    requires SameOthers(Get(s.redis, name), q, id) && (id in q.inflight ==> q.inflight[id].id == id)
    requires forall x | x != id :: Attended(s, x) <==> Attended(r, x)
    ensures UnissuedFit(r)
  {
    hide WellShaped, Singles, WaitingFit, InflightFit, AttemptsFit, Attended, SameOthers, Get, Copies;
    forall x | x in r.history.created && (x, 1) !in r.history.issued ensures Unissued(r, x) {
      assert Unissued(s, x);
      var home := s.history.created[x].queue;
      GetPut(s.redis, name, q, home);
      QueueIs(s, name);
      if home == name {
        NoneAdded(s.history.created, name, Get(s.redis, name), q, id, x);
      }
    }
  }

  lemma NoneAdded(created: map<string, Task>, name: string, a: Queue, b: Queue, id: string, x: string)
    requires SameOthers(a, b, id) && x != id && QueueOk(created, name, a)
    requires forall t | t in Copies(a) :: t.id != x
    ensures (id in b.inflight ==> b.inflight[id].id != x) ==> forall t | t in Copies(b) :: t.id != x
  {
  }

  // ----- events -----

  lemma UnissuedIs(s: System, id: string)
    requires Tidy(s) && id in s.history.created && (id, 1) !in s.history.issued
    ensures Unissued(s, id)
  {
    hide Singles, WaitingFit, InflightFit, AttemptsFit, Unissued;
  }

  lemma NoneHere(q: Queue, id: string)
    requires forall t | t in Copies(q) :: t.id != id
    ensures Free(q.ready.Keys, id) && Free(q.delayed.Keys, id)
    ensures id in q.inflight ==> q.inflight[id].id != id
  {
  }

  lemma AddedOne(q: Queue, t: Task, at: int)
    requires Free(q.ready.Keys, t.id) && Free(q.delayed.Keys, t.id) && t.id !in q.inflight
    ensures SameOthers(q, Enqueued(q, t), t.id) && OnlyOne(Enqueued(q, t), t.id)
    ensures SameOthers(q, Queues.Delayed(q, t, at), t.id) && OnlyOne(Queues.Delayed(q, t, at), t.id)
    ensures SameOthers(q, Compensated(q, t), t.id) && OnlyOne(Compensated(q, t), t.id)
  {
    AddedTo(q.ready, t, ReadyScore(t));
    AddedTo(q.delayed, t, at);
    SameInflight(q.inflight, t.id);
    OthersSelf(q.ready.Keys, t.id);
    OthersSelf(q.delayed.Keys, t.id);
    hide Others, OthersInflight, AtMostOne, Free;
  }

  lemma AddedTo(z: map<Task, int>, t: Task, at: int)
    requires Free(z.Keys, t.id)
    ensures Others(z.Keys, z[t := at].Keys, t.id) && AtMostOne(z[t := at].Keys, t.id)
  {
  }

  lemma SameInflight(m: map<string, Task>, id: string)
    ensures OthersInflight(m, m, id) && OthersInflight(m, m - {id}, id)
  {
  }

  lemma OthersSelf(ts: set<Task>, id: string)
    ensures Others(ts, ts, id)
    ensures Free(ts, id) ==> AtMostOne(ts, id)
  {
  }

  /** The first copy of a task enters a queue. */
  lemma TidyIssue(s: System, r: System, t: Task, q: Queue)
    requires WellShaped(s) && Tidy(s) && FreshCopy(s.history.created, t) && (t.id, 1) !in s.history.issued
    requires r.redis == s.redis[t.queue := q] && r.rows == s.rows
    requires r.cancellers == s.cancellers && r.attempts == s.attempts
    requires r.history.created == s.history.created && r.history.issued == s.history.issued + {(t.id, 1)}
    requires SameOthers(Get(s.redis, t.queue), q, t.id) && OnlyOne(q, t.id)
    requires forall u | u in q.ready && u.id == t.id :: u == t
    requires forall u | u in q.delayed && u.id == t.id :: u == t
    requires t.id !in q.inflight
    ensures Tidy(r)
  {
    hide WellShaped, Tidy, SameOthers, OnlyOne, Copies;
    UnissuedIs(s, t.id);
    assert SameAttempts(s, r, t.id);
    GetPut(s.redis, t.queue, q, t.queue);
    assert !Attended(r, t.id);
    hide Attended;
    assert TaskFits(r, t.queue, t.id);
    TidyTask(s, r, t.queue, q, t.id);
  }

  lemma TidySubmit(s: System, t: Task, at: int)
    requires WellShaped(s) && Tidy(s) && (t in s.submitting || t in s.snapshots) && (t.id, 1) !in s.history.issued
    ensures Tidy(DoEnqueue(s, t)) && Tidy(DoEnqueueDelayed(s, t, at)) && Tidy(DoCompensate(s, t))
  {
    hide WellShaped, Tidy, SameOthers, OnlyOne, Copies, Good, Attended;
    FreshIs(s, t);
    FreshHome(s.history.created, t);
    UnissuedIs(s, t.id);
    var q := Get(s.redis, t.queue);
    NoneHere(q, t.id);
    InflightKeyed(s, t.queue, t.id);
    AddedOne(q, t, at);
    TidyIssue(s, DoEnqueue(s, t), t, Enqueued(q, t));
    TidyIssue(s, DoEnqueueDelayed(s, t, at), t, Queues.Delayed(q, t, at));
    TidyIssue(s, DoCompensate(s, t), t, Compensated(q, t));
  }

  lemma FreshHome(created: map<string, Task>, t: Task)
    requires FreshCopy(created, t)
    ensures t.id in created && created[t.id].queue == t.queue && t.version == 1
  {
  }

  lemma InflightKeyed(s: System, name: string, id: string)
    requires WellShaped(s) && Tidy(s)
    ensures id in Get(s.redis, name).inflight ==>
              Get(s.redis, name).inflight[id].id == id && id in s.history.created && s.history.created[id].queue == name
  {
    hide WellShaped, Singles, WaitingFit, InflightFit, AttemptsFit, UnissuedFit, NamesAgree;
    if name in s.redis {
      CopyIsHome(s, name);
    }
  }

  lemma PoppedOne(q: Queue, t: Task, deadline: int)
    requires QueueSingle(q) && t in q.ready
    ensures SameOthers(q, Popped(q, t, deadline), t.id) && OnlyOne(Popped(q, t, deadline), t.id)
    ensures Free(Popped(q, t, deadline).ready.Keys, t.id) && Free(Popped(q, t, deadline).delayed.Keys, t.id)
  {
    TakenFrom(q.ready, t);
    assert Free(q.delayed.Keys, t.id);
    OthersSelf(q.delayed.Keys, t.id);
    OthersSelf((q.ready - {t}).Keys, t.id);
    PutInflight(q.inflight, t);
  }

  lemma TakenFrom(z: map<Task, int>, t: Task)
    requires Unique(z.Keys) && t in z
    ensures Others(z.Keys, (z - {t}).Keys, t.id) && Free((z - {t}).Keys, t.id)
  {
  }

  lemma PutInflight(m: map<string, Task>, t: Task)
    ensures OthersInflight(m, m[t.id := t], t.id)
  {
  }

  lemma ReadyCopy(s: System, name: string, t: Task)
    requires WellShaped(s) && t in Get(s.redis, name).ready
    ensures t.id in s.history.created && s.history.created[t.id].queue == t.queue == name
  {
  }

  lemma WaitingCopy(s: System, name: string, t: Task)
    requires WellShaped(s) && Tidy(s) && (t in Get(s.redis, name).ready || t in Get(s.redis, name).delayed)
    ensures CopyFits(s.rows, t) && !Attended(s, t.id)
    ensures (t.id, 1) in s.history.issued
  {
    hide WellShaped, Singles, InflightFit, CopyFits, RowFits;
    QueueIs(s, name);
    if p :| p in s.attempts && s.attempts[p].task.id == t.id {
      HeldIsAlone(s, p, name);
    }
    assert t in Copies(Get(s.redis, name));
    Unseen(s, t.id);
  }

  lemma Unseen(s: System, id: string)
    requires Tidy(s) && id in s.history.created
    ensures (id, 1) in s.history.issued || forall t | t in Copies(Get(s.redis, s.history.created[id].queue)) ::
              t.id != id
  {
    hide Singles, WaitingFit, InflightFit, AttemptsFit, Copies, Attended;
  }

  lemma FirstAttempt(s: System, r: System, p: nat, a: Attempt)
    requires p !in s.attempts && r.attempts == s.attempts[p := a] && !Attended(s, a.task.id)
    ensures SameAttempts(s, r, a.task.id) && Attended(r, a.task.id)
    ensures forall x | x in r.attempts && r.attempts[x].task.id == a.task.id :: x == p
  {
  }

  lemma ReadyAgrees(s: System, name: string, t: Task)
    requires WellShaped(s) && Tidy(s) && t in Get(s.redis, name).ready
    ensures Agrees(name)
  {
    hide WellShaped, Agrees, Singles, WaitingFit, InflightFit, AttemptsFit, UnissuedFit;
    QueueIs(s, name);
  }

  lemma TidyFetch(s: System, p: nat, node: string, name: string, t: Task, now: int)
    requires WellShaped(s) && Tidy(s) && p !in s.attempts && t in Get(s.redis, name).ready
    ensures Tidy(DoFetch(s, p, node, name, t, now))
  {
    hide WellShaped, Tidy, SameOthers, OnlyOne, CopyFits, QueueSingle, Get, Dequeued, Agrees;
    var q, r := Get(s.redis, name), DoFetch(s, p, node, name, t, now);
    var q' := Popped(q, t, now + DEFAULT_VISIBILITY / NS_PER_MS);
    ReadyAgrees(s, name, t);
    DequeuedAgrees(s.redis, name, t, now + DEFAULT_VISIBILITY / NS_PER_MS);
    QueueIsSingle(s, name);
    PoppedOne(q, t, now + DEFAULT_VISIBILITY / NS_PER_MS);
    ReadyCopy(s, name, t);
    WaitingCopy(s, name, t);
    GetPut(s.redis, name, q', name);
    FirstAttempt(s, r, p, r.attempts[p]);
    hide Attended, SameAttempts;
    assert Holding(r.redis, r.attempts[p]) && RowFits(r.rows, r.attempts[p]);
    FreeFits(r, name, t.id, q');
    TidyTask(s, r, name, q', t.id);
  }

  /** With no copy waiting and the inflight one attended, only the attempts matter. */
  lemma FreeFits(r: System, name: string, id: string, q: Queue)
    requires Get(r.redis, name) == q && Free(q.ready.Keys, id) && Free(q.delayed.Keys, id)
    requires id in q.inflight ==> Attended(r, id)
    requires forall p | p in r.attempts && r.attempts[p].task.id == id ::
               Holding(r.redis, r.attempts[p]) && RowFits(r.rows, r.attempts[p])
    requires forall p, x | p in r.attempts && x in r.attempts && r.attempts[p].task.id == r.attempts[x].task.id == id ::
               p == x
    ensures TaskFits(r, name, id)
  {
    hide Attended, Holding, RowFits, Get;
  }

  /** What an attempt's own queue looks like. */
  lemma HeldQueue(s: System, p: nat)
    requires WellShaped(s) && Tidy(s) && p in s.attempts
    ensures
      var id := s.attempts[p].task.id;
      var name := s.attempts[p].task.queue;
      var q := Get(s.redis, name);
      && name in s.redis && id in s.history.created && s.history.created[id].queue == name == s.attempts[p].copy.queue
      && s.attempts[p].copy.id == id && id in q.inflight && q.inflight[id] == s.attempts[p].copy
      && Free(q.ready.Keys, id) && Free(q.delayed.Keys, id) && (id, 1) in s.history.issued
  {
    hide WellShaped, Tidy, RowFits, Attended, Unique, Apart, Copies;
    AttemptFits(s, p);
    AttemptIs(s, p);
    HomeOf(s, p);
    HeldIsIssued(s, p);
    QueueIsSingle(s, s.attempts[p].copy.queue);
    SameQueue(s.history.created, s.attempts[p]);
  }

  lemma SameQueue(created: map<string, Task>, a: Attempt)
    requires AttemptOk(created, a)
    ensures a.copy.queue == a.task.queue
  {
  }

  lemma AttemptGone(s: System, r: System, p: nat)
    requires Tidy(s) && p in s.attempts && r.attempts == s.attempts - {p}
    ensures SameAttempts(s, r, s.attempts[p].task.id) && !Attended(r, s.attempts[p].task.id)
  {
    hide Singles, WaitingFit, InflightFit, UnissuedFit, Holding, RowFits;
  }

  lemma AttemptKept(s: System, r: System, p: nat, a: Attempt)
    requires Tidy(s) && p in s.attempts && r.attempts == s.attempts[p := a] && a.task.id == s.attempts[p].task.id
    ensures SameAttempts(s, r, a.task.id) && Attended(r, a.task.id)
    ensures forall x | x in r.attempts && r.attempts[x].task.id == a.task.id :: x == p
  {
    hide Singles, WaitingFit, InflightFit, UnissuedFit, Holding, RowFits;
    assert p in r.attempts && r.attempts[p].task.id == a.task.id;
  }

  lemma TidyExtend(s: System, p: nat)
    requires WellShaped(s) && Tidy(s) && p in s.attempts && s.attempts[p].phase == Fetched
    ensures Tidy(DoExtend(s, p))
  {
    hide WellShaped, Tidy, CopyFits, Get, LongLease, VisibilityMs, Attended, SameAttempts, SameElsewhere;
    var a, r := s.attempts[p], DoExtend(s, p);
    var t := a.task;
    HeldQueue(s, p);
    AttemptFits(s, p);
    if LongLease(t) {
      LongExtend(s, p, r);
    } else {
      SelfElsewhere(s.rows, t.id);
      TidyMove(s, r, p, a.(phase := Loaded));
    }
  }

  lemma LongExtend(s: System, p: nat, r: System)
    requires WellShaped(s) && Tidy(s) && p in s.attempts && s.attempts[p].phase == Fetched
    requires r == DoExtend(s, p) && LongLease(s.attempts[p].task)
    ensures Tidy(r)
  {
    hide WellShaped, Tidy, CopyFits, Get, LongLease, VisibilityMs, Attended, SameAttempts, Free, OnlyOne, SameOthers,
         TaskFits, AttemptOk;
    var a := s.attempts[p];
    var t := a.task;
    HeldQueue(s, p);
    AttemptFits(s, p);
    var q := Get(s.redis, t.queue);
    var q' := Leased(q, t.id, a.fetchedAt + VisibilityMs(t.timeout));
    LeasedSame(q, t.id, a.fetchedAt + VisibilityMs(t.timeout));
    AttemptKept(s, r, p, a.(phase := Loaded));
    GetPut(s.redis, t.queue, q', t.queue);
    FreeFits(r, t.queue, t.id, q');
    TidyTask(s, r, t.queue, q', t.id);
  }

  lemma LeasedSame(q: Queue, id: string, deadline: int)
    requires id in q.inflight && q.inflight[id].id == id && Free(q.ready.Keys, id) && Free(q.delayed.Keys, id)
    ensures SameOthers(q, Leased(q, id, deadline), id) && OnlyOne(Leased(q, id, deadline), id)
    ensures SameOthers(q, q, id) && OnlyOne(q, id)
  {
  }

  /** An attempt that ends before its final write leaves a copy that still fits. */
  lemma LeftFits(created: map<string, Task>, rows: map<string, Task>, a: Attempt)
    requires RowFits(rows, a) && AttemptOk(created, a) && !Settled(a) && a.copy.id == a.task.id
    ensures CopyFits(rows, a.copy)
  {
  }

  lemma TidyExit(s: System, p: nat)
    requires WellShaped(s) && Tidy(s) && p in s.attempts && !Settled(s.attempts[p])
    ensures Tidy(Exit(s, p))
  {
    hide WellShaped, Tidy, CopyFits, Attended, SameAttempts, RowFits, Settled, AttemptOk;
    var a, r := s.attempts[p], Exit(s, p);
    var name, id := a.task.queue, a.task.id;
    HeldQueue(s, p);
    AttemptFits(s, p);
    AttemptIs(s, p);
    LeftFits(s.history.created, s.rows, a);
    var q := Get(s.redis, name);
    LeasedSame(q, id, 0);
    AttemptGone(s, r, p);
    assert r.redis == s.redis[name := q];
    hide SameOthers, OnlyOne, Get;
    LeftTaskFits(r, name, id, q);
    TidyTask(s, r, name, q, id);
  }

  lemma LeftTaskFits(r: System, name: string, id: string, q: Queue)
    requires Get(r.redis, name) == q && Free(q.ready.Keys, id) && Free(q.delayed.Keys, id)
    requires id in q.inflight ==> CopyFits(r.rows, q.inflight[id])
    requires !Attended(r, id)
    ensures TaskFits(r, name, id)
  {
    hide CopyFits, Holding, RowFits, Get;
  }

  lemma AckedOne(q: Queue, id: string)
    requires Free(q.ready.Keys, id) && Free(q.delayed.Keys, id)
    ensures SameOthers(q, Acked(q, id), id) && OnlyOne(Acked(q, id), id)
    ensures Free(Acked(q, id).ready.Keys, id) && Free(Acked(q, id).delayed.Keys, id) && id !in Acked(q, id).inflight
  {
  }

  lemma TidyAck(s: System, p: nat)
    requires WellShaped(s) && Tidy(s) && p in s.attempts
    ensures Tidy(DoAck(s, p, false))
  {
    hide WellShaped, Tidy, CopyFits, Attended, SameAttempts, Acked, OnlyOne, SameOthers, Free, Get;
    var a, r := s.attempts[p], DoAck(s, p, false);
    var name, id := a.task.queue, a.task.id;
    HeldQueue(s, p);
    var q' := Acked(Get(s.redis, name), id);
    AckedOne(Get(s.redis, name), id);
    AttemptGone(s, r, p);
    GetPut(s.redis, name, q', name);
    LeftTaskFits(r, name, id, q');
    TidyTask(s, r, name, q', id);
  }

  lemma NackedOne(q: Queue, t: Task, at: int)
    requires Free(q.ready.Keys, t.id) && Free(q.delayed.Keys, t.id) && t.CanRetry()
    ensures SameOthers(q, Nacked(q, t, at), t.id)
    ensures OnlyOne(Nacked(q, t, at), t.id) && t.id !in Nacked(q, t, at).inflight
    ensures forall u | u in Nacked(q, t, at).ready && u.id == t.id :: u == t
    ensures forall u | u in Nacked(q, t, at).delayed && u.id == t.id :: u == t
  {
    OthersSelf(q.ready.Keys, t.id);
    OthersSelf(q.delayed.Keys, t.id);
    SameInflight(q.inflight, t.id);
    AddedTo(q.ready, t, ReadyScore(t));
    AddedTo(q.delayed, t, at);
  }

  lemma TidyNack(s: System, p: nat, at: int)
    requires WellShaped(s) && Tidy(s) && p in s.attempts && s.attempts[p].phase == Nacking
    ensures Tidy(DoNack(s, p, at, false))
  {
    hide WellShaped, Tidy, Attended, SameAttempts, Nacked, OnlyOne, SameOthers, Free, Get, Good, Rivals,
         TaskFits;
    var a, r := s.attempts[p], DoNack(s, p, at, false);
    var t := a.task;
    HeldQueue(s, p);
    AttemptFits(s, p);
    AttemptIs(s, p);
    var q' := Nacked(Get(s.redis, t.queue), t, at);
    NackedOne(Get(s.redis, t.queue), t, at);
    AttemptGone(s, r, p);
    GetPut(s.redis, t.queue, q', t.queue);
    WaitingTaskFits(r, t, q');
    TidyTask(s, r, t.queue, q', t.id);
  }

  lemma WaitingTaskFits(r: System, t: Task, q: Queue)
    requires Get(r.redis, t.queue) == q && t.id !in q.inflight && CopyFits(r.rows, t)
    requires forall u | u in q.ready && u.id == t.id :: u == t
    requires forall u | u in q.delayed && u.id == t.id :: u == t
    requires !Attended(r, t.id)
    ensures TaskFits(r, t.queue, t.id)
  {
    hide CopyFits, Holding, RowFits, Get;
  }

  // ----- batches, crashes and the table -----

  lemma CrashAttended(s: System, node: string, id: string)
    ensures Attended(DoCrash(s, node), id) ==> Attended(s, id)
    ensures Attended(s, id) && !Attended(DoCrash(s, node), id) ==>
              exists p :: p in s.attempts && s.attempts[p].node == node && s.attempts[p].task.id == id
  {
    var r := DoCrash(s, node);
    if p :| p in s.attempts && s.attempts[p].task.id == id {
      if s.attempts[p].node != node {
        assert p in r.attempts && r.attempts[p].task.id == id;
      }
    }
  }

  lemma TidyCrash(s: System, node: string)
    requires WellShaped(s) && Tidy(s)
    requires forall p | p in s.attempts && s.attempts[p].node == node :: !Settled(s.attempts[p])
    ensures Tidy(DoCrash(s, node))
  {
    hide WellShaped, QueueSingle, CopyFits, Holding, RowFits, Attended, Copies, Settled;
    var r := DoCrash(s, node);
    forall n, id | n in r.redis && id in r.redis[n].inflight && !Attended(r, id)
      ensures CopyFits(r.rows, r.redis[n].inflight[id])
    {
      CrashedFits(s, node, n, id);
    }
    forall id | id in r.history.created && (id, 1) !in r.history.issued ensures Unissued(r, id) {
      assert Unissued(s, id);
      CrashAttended(s, node, id);
    }
  }

  lemma CrashedFits(s: System, node: string, name: string, id: string)
    requires WellShaped(s) && Tidy(s) && name in s.redis
    requires id in s.redis[name].inflight && !Attended(DoCrash(s, node), id)
    requires forall p | p in s.attempts && s.attempts[p].node == node :: !Settled(s.attempts[p])
    ensures CopyFits(s.rows, s.redis[name].inflight[id])
  {
    hide WellShaped, QueueSingle, CopyFits, RowFits, Attended, Copies, AttemptOk, Free, DoCrash, Settled, WaitingFit,
         UnissuedFit, Singles;
    CrashAttended(s, node, id);
    if Attended(s, id) {
      var p :| p in s.attempts && s.attempts[p].node == node && s.attempts[p].task.id == id;
      HeldQueue(s, p);
      CopyIsHome(s, name);
      AttemptFits(s, p);
      AttemptIs(s, p);
      LeftFits(s.history.created, s.rows, s.attempts[p]);
    }
  }

  /** A batch rearranges unattended copies of one queue. */
  lemma TidyShuffle(s: System, r: System, name: string, q: Queue)
    requires WellShaped(s) && Tidy(s) && r.redis == s.redis[name := q]
    requires r.rows == s.rows && r.attempts == s.attempts && r.cancellers == s.cancellers
    requires r.history.created == s.history.created && r.history.issued == s.history.issued
    requires QueueSingle(q) && Copies(q) <= Copies(Get(s.redis, name))
    requires forall t | t in q.ready :: CopyFits(s.rows, t)
    requires forall t | t in q.delayed :: CopyFits(s.rows, t)
    requires forall id | id in q.inflight ::
               id in Get(s.redis, name).inflight && q.inflight[id] == Get(s.redis, name).inflight[id]
    requires forall id | id in Get(s.redis, name).inflight && Attended(s, id) :: id in q.inflight
    ensures Tidy(r)
  {
    hide WellShaped, QueueSingle, CopyFits, RowFits, Copies;
    assert forall id :: Attended(r, id) <==> Attended(s, id);
    hide Attended;
    ShuffledAttempts(s, r, name, q);
    ShuffledInflight(s, r, name, q);
    forall id | id in r.history.created && (id, 1) !in r.history.issued ensures Unissued(r, id) {
      assert Unissued(s, id);
    }
  }

  lemma ShuffledInflight(s: System, r: System, name: string, q: Queue)
    requires Tidy(s) && r.redis == s.redis[name := q] && r.rows == s.rows && r.attempts == s.attempts
    requires forall id | id in q.inflight ::
               id in Get(s.redis, name).inflight && q.inflight[id] == Get(s.redis, name).inflight[id]
    ensures InflightFit(r)
  {
    hide QueueSingle, CopyFits, RowFits, Singles, WaitingFit, AttemptsFit, UnissuedFit;
    assert forall id :: Attended(r, id) <==> Attended(s, id);
    hide Attended;
  }

  lemma ShuffledAttempts(s: System, r: System, name: string, q: Queue)
    requires Tidy(s) && r.redis == s.redis[name := q] && r.rows == s.rows && r.attempts == s.attempts
    requires forall id | id in q.inflight ::
               id in Get(s.redis, name).inflight && q.inflight[id] == Get(s.redis, name).inflight[id]
    requires forall id | id in Get(s.redis, name).inflight && Attended(s, id) :: id in q.inflight
    ensures AttemptsFit(r)
  {
    hide QueueSingle, CopyFits, RowFits, Singles, WaitingFit, InflightFit, UnissuedFit;
    forall p | p in r.attempts ensures Holding(r.redis, r.attempts[p]) && RowFits(r.rows, r.attempts[p]) {
      assert Holding(s.redis, s.attempts[p]);
      assert Attended(s, s.attempts[p].task.id);
      GetPut(s.redis, name, q, s.attempts[p].copy.queue);
    }
  }

  lemma MovedSingle(ready: set<Task>, delayed: set<Task>, moved: set<Task>, ids: set<string>)
    requires Unique(ready) && Unique(delayed) && Apart(ready, delayed) && Outside(ready, ids) && Outside(delayed, ids)
    requires moved <= delayed
    ensures Unique(ready + moved) && Unique(delayed - moved) && Apart(ready + moved, delayed - moved)
    ensures Outside(ready + moved, ids) && Outside(delayed - moved, ids)
  {
  }

  lemma PromotedSingle(q: Queue, ts: set<Task>)
    requires QueueSingle(q) && ts <= q.delayed.Keys
    ensures QueueSingle(Promoted(q, ts))
  {
    hide Unique, Apart, Outside;
    PromoteKeepsCopies(q, ts);
    assert Promoted(q, ts).delayed.Keys == q.delayed.Keys - ts;
    MovedSingle(q.ready.Keys, q.delayed.Keys, ts, q.inflight.Keys);
  }

  lemma TidyPromote(s: System, name: string, now: int, ts: seq<Task>)
    requires WellShaped(s) && Tidy(s) && Elements(ts) <= Get(s.redis, name).delayed.Keys
    ensures Tidy(DoPromote(s, name, now, ts))
  {
    hide WellShaped, Tidy, CopyFits, Attended, QueueSingle, Copies;
    var q := Get(s.redis, name);
    QueueIsSingle(s, name);
    PromotedSingle(q, Elements(ts));
    CopiesPromoted(q, Elements(ts));
    PromoteKeepsCopies(q, Elements(ts));
    forall t | t in Promoted(q, Elements(ts)).ready || t in Promoted(q, Elements(ts)).delayed
      ensures CopyFits(s.rows, t)
    {
      WaitingCopy(s, name, t);
    }
    TidyShuffle(s, DoPromote(s, name, now, ts), name, Promoted(q, Elements(ts)));
  }

  lemma StrandedIs(q: Queue, ids: set<string>, t: Task)
    requires t in Stranded(q, ids) && forall id | id in q.inflight :: q.inflight[id].id == id
    ensures t.id in ids && t.id in q.inflight && q.inflight[t.id] == t
  {
  }

  lemma ReclaimedSingle(q: Queue, ids: set<string>)
    requires QueueSingle(q) && forall id | id in q.inflight :: q.inflight[id].id == id
    ensures QueueSingle(Reclaimed(q, ids))
  {
    var r := Reclaimed(q, ids);
    ReclaimKeepsCopies(q, ids);
    forall t | t in r.ready ensures t in q.ready || BackFrom(q, ids, t) {
      if t !in q.ready {
        StrandedIs(q, ids, t);
      }
    }
    hide Stranded, Reclaimed;
    assert r.delayed == q.delayed && r.inflight.Keys == q.inflight.Keys - ids;
    BackSingle(q.ready.Keys, r.ready.Keys, q, ids);
  }

  /** A copy that reclaiming takes out of inflight. */
  predicate BackFrom(q: Queue, ids: set<string>, t: Task) {
    t.id in ids && t.id in q.inflight && q.inflight[t.id] == t
  }

  lemma BackSingle(before: set<Task>, after: set<Task>, q: Queue, ids: set<string>)
    requires QueueSingle(q) && before == q.ready.Keys
    requires forall t | t in after :: t in before || BackFrom(q, ids, t)
    ensures Unique(after) && Apart(after, q.delayed.Keys) && Outside(after, q.inflight.Keys - ids)
    ensures Outside(q.delayed.Keys, q.inflight.Keys - ids)
  {
  }

  lemma TidyReclaim(s: System, name: string, ids: set<string>)
    requires WellShaped(s) && Tidy(s) && forall id | id in ids :: !Attended(s, id)
    ensures Tidy(OnQueue(s, name, Reclaimed(Get(s.redis, name), ids)))
  {
    hide WellShaped, Tidy, CopyFits, Attended, QueueSingle, Copies, Stranded;
    var q := Get(s.redis, name);
    QueueIsSingle(s, name);
    forall id | id in q.inflight ensures q.inflight[id].id == id {
      InflightKeyed(s, name, id);
    }
    ReclaimedSingle(q, ids);
    CopiesReclaimed(q, ids);
    ReclaimKeepsCopies(q, ids);
    forall t | t in Reclaimed(q, ids).ready || t in Reclaimed(q, ids).delayed ensures CopyFits(s.rows, t) {
      if t in q.ready || t in q.delayed {
        WaitingCopy(s, name, t);
      } else {
        StrandedIs(q, ids, t);
        UnattendedFits(s, name, t.id);
      }
    }
    TidyShuffle(s, OnQueue(s, name, Reclaimed(q, ids)), name, Reclaimed(q, ids));
  }

  lemma UnattendedFits(s: System, name: string, id: string)
    requires Tidy(s) && id in Get(s.redis, name).inflight && !Attended(s, id)
    ensures CopyFits(s.rows, Get(s.redis, name).inflight[id])
  {
    hide Singles, WaitingFit, AttemptsFit, UnissuedFit, CopyFits, Attended;
  }

  lemma TidyCreate(s: System, t: Task, now: int)
    requires WellShaped(s) && Tidy(s) && t.id !in s.history.created && t.state == Pending && t.version == 1
    requires Agrees(t.queue)
    ensures Tidy(DoCreate(s, t, now))
  {
    hide WellShaped, QueueSingle, CopyFits, RowFits, Holding, Unissued;
    var r := DoCreate(s, t, now);
    Unknown(s, t);
    assert forall id :: Attended(r, id) <==> Attended(s, id);
    hide Attended, WaitingFit, AttemptsFit, UnissuedFit;
    CreatedWaiting(s, t, r);
    CreatedAttempts(s, t, r);
    CreatedUnissued(s, t, now);
    CreatedInflight(s, t, r);
  }

  lemma CreatedInflight(s: System, t: Task, r: System)
    requires WellShaped(s) && Tidy(s) && t.id !in s.history.created && r.redis == s.redis && r.rows == s.rows[t.id := t]
    requires r.attempts == s.attempts
    ensures InflightFit(r)
  {
    hide WellShaped, Singles, WaitingFit, AttemptsFit, UnissuedFit;
    assert forall id :: Attended(r, id) <==> Attended(s, id);
    hide Attended;
    forall name, id | name in r.redis && id in r.redis[name].inflight && !Attended(r, id)
      ensures CopyFits(r.rows, r.redis[name].inflight[id])
    {
      CopyIsHome(s, name);
      assert CopyFits(s.rows, s.redis[name].inflight[id]);
    }
  }

  lemma CreatedAttempts(s: System, t: Task, r: System)
    requires WellShaped(s) && Tidy(s) && t.id !in s.history.created && r.redis == s.redis && r.rows == s.rows[t.id := t]
    requires r.attempts == s.attempts
    ensures AttemptsFit(r)
  {
    hide WellShaped, Singles, WaitingFit, InflightFit, UnissuedFit, Holding;
    forall p | p in r.attempts ensures Holding(r.redis, r.attempts[p]) && RowFits(r.rows, r.attempts[p]) {
      HomeOf(s, p);
      assert Holding(s.redis, s.attempts[p]) && RowFits(s.rows, s.attempts[p]);
    }
  }

  lemma CreatedUnissued(s: System, t: Task, now: int)
    requires WellShaped(s) && Tidy(s) && t.id !in s.history.created && t.state == Pending && t.version == 1
    ensures UnissuedFit(DoCreate(s, t, now))
  {
    hide WellShaped, Singles, WaitingFit, InflightFit, AttemptsFit;
    var r := DoCreate(s, t, now);
    Unknown(s, t);
    assert forall id :: Attended(r, id) <==> Attended(s, id);
    hide Attended, Copies;
    forall id | id in r.history.created && (id, 1) !in r.history.issued ensures Unissued(r, id) {
      if id != t.id {
        assert Unissued(s, id);
      }
    }
  }

  lemma CreatedWaiting(s: System, t: Task, r: System)
    requires WellShaped(s) && Tidy(s) && t.id !in s.history.created && r.redis == s.redis && r.rows == s.rows[t.id := t]
    ensures WaitingFit(r)
  {
    hide WellShaped, Singles, InflightFit, AttemptsFit, UnissuedFit;
    forall name, u | name in r.redis && (u in r.redis[name].ready || u in r.redis[name].delayed)
      ensures CopyFits(r.rows, u)
    {
      CopyIsHome(s, name);
      assert CopyFits(s.rows, u);
    }
  }

  /** A new id occurs nowhere yet. */
  lemma Unknown(s: System, t: Task)
    requires WellShaped(s) && t.id !in s.history.created
    ensures !Attended(s, t.id) && t.id !in s.rows
    ensures forall u | u in Copies(Get(s.redis, t.queue)) :: u.id != t.id
    ensures forall name, id | name in s.redis && id in s.redis[name].inflight ::
              id != t.id && s.redis[name].inflight[id].id == id
  {
    hide CancellersOk, FreshOk;
    forall p | p in s.attempts ensures s.attempts[p].task.id != t.id {
      HomeOf(s, p);
    }
    QueueIs(s, t.queue);
  }

  lemma TidyCleanup(s: System, gone: set<string>)
    requires WellShaped(s) && Tidy(s) && gone <= s.rows.Keys && forall id | id in gone :: s.rows[id].IsTerminal()
    ensures Tidy(DoCleanup(s, gone))
  {
    hide WellShaped, QueueSingle, Copies;
    var r := DoCleanup(s, gone);
    forall t: Task ensures CopyFits(s.rows, t) ==> CopyFits(r.rows, t) {
    }
    assert forall id :: Attended(r, id) <==> Attended(s, id);
    hide Attended;
    forall id | id in r.history.created && (id, 1) !in r.history.issued ensures Unissued(r, id) {
      assert Unissued(s, id);
    }
    forall p | p in r.attempts ensures Holding(r.redis, r.attempts[p]) && RowFits(r.rows, r.attempts[p]) {
      assert Holding(s.redis, s.attempts[p]) && RowFits(s.rows, s.attempts[p]);
    }
  }

  lemma TidyWorkerStep(s: System, e: Event)
    requires WellShaped(s) && Tidy(s) && Enabled(s, e) && ByWorker(e) && Calm(s, e)
    ensures Tidy(Apply(s, e))
  {
    hide *;
    UnfoldWorker(s, e);
    CalmMeans(s, e);
    match e
    case Fetch(p, node, name, t, now) =>
      LeastIsMember(Get(s.redis, name).ready, t);
      TidyFetch(s, p, node, name, t, now);
    case Extend(p) => TidyExtend(s, p);
    case ExtendFails(p, applied) => TidyExtendFails(s, p, applied);
    case Screen(p, readable) => TidyScreen(s, p, readable);
    case Track(p) => TidyTrack(s, p);
    case Recheck(p, readable) => TidyRecheck(s, p, readable);
    case Start(p, fault) => TidyStart(s, p);
    case Return(p, ok, shutdown, readable) => TidyReturn(s, p, ok, shutdown, readable);
    case Settle(p, fault) => TidySettle(s, p);
    case Ack(p, lost) => TidyAck(s, p);
    case Nack(p, clock, jitter, lost) => TidyNack(s, p, RetryAt(s.attempts[p].task, clock, jitter));
    case _ =>
  }

  lemma TidyStep(s: System, e: Event)
    requires WellShaped(s) && Tidy(s) && Enabled(s, e) && Calm(s, e)
    ensures Tidy(Apply(s, e))
  {
    hide *;
    if ByWorker(e) {
      TidyWorkerStep(s, e);
      return;
    }
    UnfoldOther(s, e);
    CalmMeans(s, e);
    match e
    case Create(t, now) => TidyCreate(s, t, now);
    case Enqueue(t) => TidySubmit(s, t, 0);
    case EnqueueDelayed(t, at) => TidySubmit(s, t, at);
    case Compensate(t) => TidySubmit(s, t, 0);
    case Crash(node) => TidyCrash(s, node);
    case Deliver(node, id) => TidyDeliver(s, node, id);
    case CancelWrite(c, fault) => NoCancellers(s);
    case CancelRemove(c, lost) => NoCancellers(s);
    case CancelPublish(c, lost) => NoCancellers(s);
    case Promote(name, now, batch, ts) =>
      RangeElements(Get(s.redis, name).delayed, now, batch, ts);
      TidyPromote(s, name, now, ts);
    case Reclaim(name, now, batch, ids) => AllElements(s, ids); TidyReclaim(s, name, Elements(ids));
    case Scan(t, now, olderThan) => TidyAside(s, t, now, "");
    case Touch(id, now) => TidyAside(s, NoTask, now, id);
    case Cleanup(gone) => TidyCleanup(s, gone);
    case _ =>
  }

  lemma TidyAside(s: System, t: Task, now: int, id: string)
    requires Tidy(s)
    ensures Tidy(DoScan(s, t, now)) && Tidy(DoTouch(s, id, now))
  {
    hide Tidy;
    TidyRelabel(s, DoScan(s, t, now));
    TidyRelabel(s, DoTouch(s, id, now));
  }

  lemma NoCancellers(s: System)
    requires Tidy(s)
    ensures s.cancellers == map[]
  {
    hide Singles, WaitingFit, InflightFit, AttemptsFit, UnissuedFit;
  }

  lemma AllElements(s: System, ids: seq<string>)
    requires forall id | id in ids :: !Attended(s, id)
    ensures forall id | id in Elements(ids) :: !Attended(s, id)
  {
    hide Attended;
  }

  lemma CalmMeans(s: System, e: Event)
    requires Calm(s, e)
    ensures !e.CancelRead? && !e.NoHandler?
    ensures e.Create? ==> Agrees(e.t.queue)
    ensures e.Enqueue? || e.EnqueueDelayed? || e.Compensate? ==> (e.t.id, 1) !in s.history.issued
    ensures e.Start? || e.Settle? ==> e.fault == NoFault
    ensures e.Ack? || e.Nack? ==> !e.lost
    ensures e.Reclaim? ==> forall id | id in e.ids :: !Attended(s, id)
    ensures e.Crash? ==> forall p | p in s.attempts && s.attempts[p].node == e.node :: !Settled(s.attempts[p])
  {
    hide Attended, Settled, Agrees;
  }

  lemma TidyExtendFails(s: System, p: nat, applied: bool)
    requires WellShaped(s) && Tidy(s) && p in s.attempts && s.attempts[p].phase == Fetched
    ensures Tidy(Exit(if applied then DoExtend(s, p) else s, p))
  {
    hide WellShaped, Tidy, Exit;
    if applied {
      TidyExtend(s, p);
      StepExtend(s, p);
      ExtendedPhase(s, p);
      TidyExit(DoExtend(s, p), p);
    } else {
      TidyExit(s, p);
    }
  }

  lemma ExtendedPhase(s: System, p: nat)
    requires p in s.attempts
    ensures p in DoExtend(s, p).attempts && DoExtend(s, p).attempts[p].phase == Loaded
  {
    hide Leased, LongLease, VisibilityMs, Get;
  }

  lemma {:induction false} AlwaysTidy(es: seq<Event>)
    requires Exec(Calm, es).Some?
    ensures Tidy(Exec(Calm, es).value)
  {
    hide Enabled, Apply, Calm;
    if es != [] {
      var before := es[..|es| - 1];
      AlwaysTidy(before);
      Always(Calm, before);
      TidyStep(Exec(Calm, before).value, es[|es| - 1]);
    }
  }

  // ----- the theorems -----

  ghost predicate CalmlyReachable(s: System) {
    exists es :: Exec(Calm, es) == Some(s)
  }

  lemma CalmIsTidy(s: System)
    requires CalmlyReachable(s)
    ensures WellShaped(s) && Tidy(s)
  {
    hide WellShaped, Tidy, Calm, Enabled, Apply;
    var es :| Exec(Calm, es) == Some(s);
    AlwaysTidy(es);
    Always(Calm, es);
  }

  /** A copy that waits for a worker, or whose worker died, is never more than one version behind. */
  lemma CopyAtMostOneBehind(s: System, name: string, t: Task)
    requires CalmlyReachable(s)
    requires t in Get(s.redis, name).ready || t in Get(s.redis, name).delayed
             || (t.id in Get(s.redis, name).inflight && Get(s.redis, name).inflight[t.id] == t && !Attended(s, t.id))
    ensures t.id in s.rows && !s.rows[t.id].IsTerminal()
    ensures s.rows[t.id].version == t.version
            || (s.rows[t.id].version == t.version + 1 && s.rows[t.id].state == Running)
  {
    hide WellShaped, Tidy, Attended, Calm, Exec, Get;
    CalmIsTidy(s);
    if t in Get(s.redis, name).ready || t in Get(s.redis, name).delayed {
      WaitingCopy(s, name, t);
    } else {
      UnattendedFits(s, name, t.id);
    }
  }

  /** Every attempt that gets as far as its final write finds its version in the table, so the write
      succeeds and the row takes the outcome, after any number of crashes. */
  lemma FinalWriteLands(s: System, p: nat)
    requires CalmlyReachable(s) && InPhase(s, p, Settling)
    ensures var t := s.attempts[p].task;
            && Succeeds(s.rows, t, NoFault)
            && t.id in Apply(s, Settle(p, NoFault)).rows
            && Apply(s, Settle(p, NoFault)).rows[t.id].state == t.state
            && Apply(s, Settle(p, NoFault)).rows[t.id].version == t.version + 1
  {
    hide WellShaped, Tidy, Calm, Exec, Holding, Good, Committed;
    CalmIsTidy(s);
    AttemptFits(s, p);
    AttemptIs(s, p);
    var t := s.attempts[p].task;
    assert LockHolds(s.rows, t);
    WriteFrame(s, t, NoFault);
    assert Apply(s, Settle(p, NoFault)).rows == Write(s, t, NoFault).rows;
  }
}
