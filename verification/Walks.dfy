/** Concrete runs, step by step: one task, one worker at a time. The witnesses of what can go wrong, and
    of what is still fine, are put together from these. */
module Walks {
  import opened Entities
  import opened SortedSets
  import opened Keys
  import opened Queues
  import opened Timing
  import opened TaskTable
  import opened Protocol

  predicate Fresh(t: Task) {
    t.state == Pending && t.retryCount == 0 && t.version == 1
  }

  /** Steps that every kind of run considered here allows in any state. */
  predicate Plain(e: Event) {
    || e.Fetch? || e.Extend? || e.Screen? || e.Track? || e.Recheck? || e.Return?
    || (e.Start? && e.fault == NoFault)
  }

  ghost predicate Permits(allowed: (System, Event) -> bool) {
    forall s, e | Plain(e) :: allowed(s, e)
  }

  lemma AnythingGoes()
    ensures Permits(Anything) && forall s, e :: Anything(s, e)
  {
  }

  /** What a walk with one task leaves alone. */
  datatype Backdrop = Backdrop(
    others: map<string, Task>,
    cancellers: map<nat, Canceller>,
    signals: set<string>,
    created: map<string, Task>,
    finished: set<string>,
    cancelled: set<string>,
    cleaned: set<string>,
    delivered: set<(string, string)>,
    overwritten: set<string>)

  function Around(s: System, id: string): Backdrop {
    Backdrop(s.rows - {id}, s.cancellers, s.signals, s.history.created, s.history.finished, s.history.cancelled,
        s.history.cleaned,
             s.history.hearing.delivered, s.history.hearing.overwritten)
  }

  /** No attempt has lost its entry or a state check. */
  predicate Clean(s: System) {
    s.history.hearing.shadowed == {} && s.history.hearing.blind == {}
  }

  predicate HasRow(s: System, b: Task, row: Task) {
    b.id in s.rows && s.rows[b.id] == row && b.id in s.history.created && s.history.created[b.id].queue == b.queue
  }

  /** b waits in ready, alone in its queue, and nobody works. */
  ghost predicate Queued(s: System, b: Task, row: Task) {
    var q := Get(s.redis, b.queue);
    && s.attempts == map[] && Clean(s) && HasRow(s, b, row)
    && q.ready.Keys == {b} && q.delayed == map[] && q.inflight == map[] && q.lease == map[]
  }

  /** b was dequeued: it is in its own queue's hash if the name agrees, and nowhere in its queue if not. */
  ghost predicate OffReady(s: System, b: Task) {
    var q := Get(s.redis, b.queue);
    && q.ready == map[] && q.delayed == map[] && q.lease.Keys <= {b.id}
    && (Agrees(b.queue) ==> q.inflight == map[b.id := b] && q.lease.Keys == {b.id})
    && (!Agrees(b.queue) ==> q.inflight == map[])
  }

  /** One worker, with number p, has b in hand as it was dequeued. */
  ghost predicate Working(s: System, b: Task, row: Task, p: nat, node: string, phase: Phase) {
    && s.attempts.Keys == {p} && s.attempts[p].node == node && s.attempts[p].task == b && s.attempts[p].phase == phase
    && !s.attempts[p].cancelled && (phase == Tracked || phase == Cleared ==> s.attempts[p].tracked)
    && Clean(s) && HasRow(s, b, row) && OffReady(s, b)
  }

  /** Its handler runs. */
  ghost predicate HandlerRuns(s: System, b: Task, row: Task, p: nat, node: string) {
    && s.attempts.Keys == {p} && s.attempts[p].node == node
    && s.attempts[p].phase == Handling && !s.attempts[p].cancelled && s.attempts[p].tracked
    && s.attempts[p].task == b.(state := Running, version := b.version + 1)
    && Clean(s) && HasRow(s, b, row) && OffReady(s, b)
  }

  predicate EmptyAt(s: System, name: string) {
    var q := Get(s.redis, name);
    q.ready == map[] && q.delayed == map[] && q.inflight == map[] && q.lease == map[]
  }

  lemma CreateIt(allowed: (System, Event) -> bool, b: Task, es: seq<Event>, s: System) returns (r: System)
    requires Exec(allowed, es) == Some(s) && Fresh(b) && b.id !in s.history.created && allowed(s, Create(b, 0))
    ensures Exec(allowed, es + [Create(b, 0)]) == Some(r) && r == DoCreate(s, b, 0)
    ensures b in r.submitting && HasRow(r, b, b) && r.attempts == s.attempts
    ensures r.redis == s.redis && (Clean(s) ==> Clean(r))
    ensures r.cancels == s.cancels
    ensures Around(r, b.id) == Around(s, b.id).(created := s.history.created[b.id := b])
  {
    hide Exec;
    r := Then(allowed, es, s, Create(b, 0));
    assert r.rows - {b.id} == s.rows - {b.id};
  }

  lemma EnqueueIt(allowed: (System, Event) -> bool, b: Task, row: Task, es: seq<Event>, s: System) returns (r: System)
    requires Exec(allowed, es) == Some(s) && b in s.submitting && HasRow(s, b, row)
    requires s.attempts == map[] && Clean(s) && EmptyAt(s, b.queue)
    requires allowed(s, Enqueue(b))
    ensures Exec(allowed, es + [Enqueue(b)]) == Some(r) && Queued(r, b, row)
    ensures Around(r, b.id) == Around(s, b.id) && r.cancels == s.cancels
  {
    hide Exec;
    r := Then(allowed, es, s, Enqueue(b));
  }

  lemma Submit(allowed: (System, Event) -> bool, b: Task, es: seq<Event>, s: System) returns (r: System)
    requires Exec(allowed, es) == Some(s) && Fresh(b) && b.id !in s.history.created
    requires s.attempts == map[] && Clean(s) && EmptyAt(s, b.queue)
    requires allowed(s, Create(b, 0)) && allowed(DoCreate(s, b, 0), Enqueue(b))
    ensures Exec(allowed, es + [Create(b, 0)] + [Enqueue(b)]) == Some(r) && Queued(r, b, b) && r.cancels == s.cancels
    ensures Around(r, b.id) == Around(s, b.id).(created := s.history.created[b.id := b])
  {
    hide Exec, DoCreate, Queued;
    var mid := CreateIt(allowed, b, es, s);
    r := EnqueueIt(allowed, b, b, es + [Create(b, 0)], mid);
  }

  lemma Take(allowed: (System, Event) -> bool, b: Task, row: Task, es: seq<Event>, s: System, p: nat, node: string)
    returns (r: System)
    requires Permits(allowed) && Exec(allowed, es) == Some(s) && Queued(s, b, row)
    ensures Exec(allowed, es + [Fetch(p, node, b.queue, b, 0)]) == Some(r) && Working(r, b, row, p, node, Fetched)
    ensures Around(r, b.id) == Around(s, b.id) && r.cancels == s.cancels
  {
    hide Exec, Dequeued, Agrees;
    r := Then(allowed, es, s, Fetch(p, node, b.queue, b, 0));
    DequeuedLeaves(s.redis, b, DEFAULT_VISIBILITY / NS_PER_MS);
  }

  lemma DequeuedLeaves(redis: map<string, Queue>, b: Task, deadline: int)
    requires
      var q := Get(redis, b.queue);
      q.ready.Keys == {b} && q.delayed == map[] && q.inflight == map[] && q.lease == map[]
    ensures
      var q := Get(Dequeued(redis, b.queue, b, deadline), b.queue);
      && q.ready == map[] && q.delayed == map[] && q.lease.Keys <= {b.id}
      && (Agrees(b.queue) ==> q.inflight == map[b.id := b] && q.lease.Keys == {b.id})
      && (!Agrees(b.queue) ==> q.inflight == map[])
  {
    hide InflightName, LeaseName, Agrees;
    NamesApart(b.queue);
    assert Get(redis, b.queue).ready - {b} == map[];
  }

  lemma ExtendIt(allowed: (System, Event) -> bool, b: Task, row: Task, es: seq<Event>, s: System, p: nat, node: string)
    returns (r: System)
    requires Permits(allowed) && Exec(allowed, es) == Some(s) && Working(s, b, row, p, node, Fetched)
    ensures Exec(allowed, es + [Extend(p)]) == Some(r)
    ensures Working(r, b, row, p, node, Loaded) && Around(r, b.id) == Around(s, b.id)
    ensures r.cancels == s.cancels
  {
    hide Exec, VisibilityMs, LongLease, Agrees;
    r := Then(allowed, es, s, Extend(p));
  }

  lemma ScreenIt(allowed: (System, Event) -> bool, b: Task, row: Task, es: seq<Event>, s: System, p: nat, node: string)
    returns (r: System)
    requires Permits(allowed) && Exec(allowed, es) == Some(s)
    requires Working(s, b, row, p, node, Loaded) && !row.IsTerminal()
    ensures Exec(allowed, es + [Screen(p, true)]) == Some(r)
    ensures Working(r, b, row, p, node, Screened) && Around(r, b.id) == Around(s, b.id)
    ensures r.cancels == s.cancels
  {
    hide Exec, OffReady;
    r := Then(allowed, es, s, Screen(p, true));
    SameQueues(s, r, b);
  }

  lemma SameQueues(s: System, r: System, b: Task)
    requires r.redis == s.redis && OffReady(s, b)
    ensures OffReady(r, b)
  {
  }

  lemma TrackIt(allowed: (System, Event) -> bool, b: Task, row: Task, es: seq<Event>, s: System, p: nat, node: string)
    returns (r: System)
    requires Permits(allowed) && Exec(allowed, es) == Some(s) && Working(s, b, row, p, node, Screened)
    ensures Exec(allowed, es + [Track(p)]) == Some(r)
    ensures Working(r, b, row, p, node, Tracked) && Around(r, b.id) == Around(s, b.id)
    ensures r.cancels == s.cancels[(node, b.id) := p]
  {
    hide Exec, OffReady;
    r := Then(allowed, es, s, Track(p));
    assert Rivals(s, p) == {};
    SameQueues(s, r, b);
  }

  lemma RecheckIt(allowed: (System, Event) -> bool, b: Task, row: Task, es: seq<Event>, s: System, p: nat, node: string)
    returns (r: System)
    requires Permits(allowed) && Exec(allowed, es) == Some(s)
    requires Working(s, b, row, p, node, Tracked) && !row.IsTerminal()
    ensures Exec(allowed, es + [Recheck(p, true)]) == Some(r)
    ensures Working(r, b, row, p, node, Cleared) && Around(r, b.id) == Around(s, b.id)
    ensures r.cancels == s.cancels
  {
    hide Exec, OffReady;
    r := Then(allowed, es, s, Recheck(p, true));
    SameQueues(s, r, b);
  }

  /** The Running write: it commits if the row still has the copy's version, and changes nothing if not. */
  lemma StartIt(allowed: (System, Event) -> bool, b: Task, row: Task, es: seq<Event>, s: System, p: nat, node: string)
    returns (r: System, after: Task)
    requires Permits(allowed) && Exec(allowed, es) == Some(s) && Working(s, b, row, p, node, Cleared) && b.version >= 1
    requires row.state != Cancelled || row.version != b.version
    ensures Exec(allowed, es + [Start(p, NoFault)]) == Some(r)
    ensures HandlerRuns(r, b, after, p, node) && Around(r, b.id) == Around(s, b.id)
    ensures after.id == row.id
    ensures if row.version == b.version then after.state == Running && after.version == b.version + 1 else after == row
  {
    hide Exec, OffReady, Enabled, Apply, DoStart;
    StartStep(s, p, NoFault);
    r := Then(allowed, es, s, Start(p, NoFault));
    after := StartWrites(s, b, row, p, node);
    SameQueues(s, r, b);
  }

  lemma StartStep(s: System, p: nat, fault: Fault)
    requires InPhase(s, p, Cleared)
    ensures
      var e, r := Start(p, fault), DoStart(s, p, fault);
      Enabled(s, e) && Apply(s, e) == r && InPhase(r, p, Handling) && r.history.cancelled == s.history.cancelled
  {
    hide Committed, Commits, Succeeds;
  }

  lemma StartWrites(s: System, b: Task, row: Task, p: nat, node: string) returns (after: Task)
    requires Working(s, b, row, p, node, Cleared) && b.version >= 1
    requires (row.state != Cancelled || row.version != b.version)
    ensures
      var r := DoStart(s, p, NoFault);
      && r == s.(rows := r.rows, attempts := r.attempts, history := s.history.(content := r.history.content))
      && b.id in r.rows && after == r.rows[b.id] && r.rows - {b.id} == s.rows - {b.id}
      && r.attempts == map[p := r.attempts[p]]
      && r.attempts[p] == s.attempts[p].(task := b.(state := Running, version := b.version + 1), phase := Handling,
                                         clean := r.attempts[p].clean)
      && after.id == row.id
      && if row.version == b.version then after.state == Running && after.version == b.version + 1 else after == row
  {
    hide OffReady;
    after := DoStart(s, p, NoFault).rows[b.id];
    assert DoStart(s, p, NoFault).rows - {b.id} == s.rows - {b.id};
  }

  /** From the queue to a worker that is past its first check. */
  lemma Reach(allowed: (System, Event) -> bool, b: Task, row: Task, es: seq<Event>, s: System, p: nat, node: string)
    returns (fs: seq<Event>, r: System)
    requires Permits(allowed) && Exec(allowed, es) == Some(s) && Queued(s, b, row) && !row.IsTerminal()
    ensures Exec(allowed, fs) == Some(r) && Working(r, b, row, p, node, Screened) && Around(r, b.id) == Around(s, b.id)
    ensures fs == es + [Fetch(p, node, b.queue, b, 0)] + [Extend(p)] + [Screen(p, true)] && r.cancels == s.cancels
  {
    hide *;
    r := Take(allowed, b, row, es, s, p, node);
    fs := es + [Fetch(p, node, b.queue, b, 0)];
    r := ExtendIt(allowed, b, row, fs, r, p, node);
    fs := fs + [Extend(p)];
    r := ScreenIt(allowed, b, row, fs, r, p, node);
    fs := fs + [Screen(p, true)];
  }

  /** From the queue to a worker that has passed both checks. */
  lemma Clear(allowed: (System, Event) -> bool, b: Task, row: Task, es: seq<Event>, s: System, p: nat, node: string)
    returns (fs: seq<Event>, r: System)
    requires Permits(allowed) && Exec(allowed, es) == Some(s) && Queued(s, b, row) && !row.IsTerminal()
    ensures Exec(allowed, fs) == Some(r) && Working(r, b, row, p, node, Cleared) && Around(r, b.id) == Around(s, b.id)
    ensures fs == es + [Fetch(p, node, b.queue, b, 0)] + [Extend(p)] + [Screen(p, true)]
                  + [Track(p)] + [Recheck(p, true)]
    ensures r.cancels == s.cancels[(node, b.id) := p]
  {
    hide *;
    fs, r := Reach(allowed, b, row, es, s, p, node);
    r := TrackIt(allowed, b, row, fs, r, p, node);
    fs := fs + [Track(p)];
    r := RecheckIt(allowed, b, row, fs, r, p, node);
    fs := fs + [Recheck(p, true)];
  }

  /** The worker that runs the handler dies. */
  lemma Die(allowed: (System, Event) -> bool, b: Task, row: Task, es: seq<Event>, s: System, p: nat, node: string)
    returns (r: System)
    requires Exec(allowed, es) == Some(s) && HandlerRuns(s, b, row, p, node) && allowed(s, Crash(node))
    ensures Exec(allowed, es + [Crash(node)]) == Some(r) && Around(r, b.id) == Around(s, b.id)
    ensures r.attempts == map[] && Clean(r) && HasRow(r, b, row) && OffReady(r, b)
  {
    hide Exec, OffReady;
    r := Then(allowed, es, s, Crash(node));
    SameQueues(s, r, b);
  }

  /** Its expired lease puts b back into ready, if its queue name agrees. */
  lemma ComeBack(allowed: (System, Event) -> bool, b: Task, row: Task, es: seq<Event>, s: System)
    returns (e: Event, r: System)
    requires Exec(allowed, es) == Some(s) && s.attempts == map[] && Clean(s)
    requires HasRow(s, b, row) && OffReady(s, b) && Agrees(b.queue)
    requires forall now :: allowed(s, Reclaim(b.queue, now, 100, [b.id]))
    ensures Exec(allowed, es + [e]) == Some(r) && e.Reclaim? && Queued(r, b, row) && Around(r, b.id) == Around(s, b.id)
  {
    hide Exec, Agrees;
    var q := Get(s.redis, b.queue);
    var now := q.lease[b.id];
    assert Due(q.lease, now) == {b.id};
    e := Reclaim(b.queue, now, 100, [b.id]);
    r := Then(allowed, es, s, e);
    assert Elements([b.id]) == {b.id};
    assert Stranded(q, {b.id}) == {b} by {
      assert q.inflight[b.id] == b;
    }
  }

  // ----- a cancel -----

  /** The cancel of b is read and committed. */
  lemma CommitCancel(b: Task, row: Task, es: seq<Event>, s: System) returns (r: System)
    requires Exec(Anything, es) == Some(s) && s.cancellers == map[] && b.id in s.rows && s.rows[b.id] == row
    requires row.id == b.id && !row.IsTerminal() && row.version >= 1
    ensures Exec(Anything, es + [CancelRead(0, b.id)] + [CancelWrite(0, NoFault)]) == Some(r)
    ensures b.id in r.rows && r.rows[b.id].state == Cancelled
    ensures r.rows[b.id].version == row.version + 1 && r.rows[b.id].id == b.id
    ensures r == s.(rows := r.rows, cancellers := r.cancellers, history := r.history)
    ensures r.rows - {b.id} == s.rows - {b.id}
    ensures CancelIn(r, 0, Removing) && r.cancellers.Keys == {0}
    ensures r.cancellers[0].task.id == b.id && r.cancellers[0].task.queue == row.queue
    ensures r.history == s.history.(content := r.history.content, cancelled := s.history.cancelled + {b.id})
  {
    hide Exec, Enabled, Apply, DoCancelWrite;
    CancelReads(s, row);
    var mid := Then(Anything, es, s, CancelRead(0, b.id));
    CancelWrites(mid, row);
    r := Then(Anything, es + [CancelRead(0, b.id)], mid, CancelWrite(0, NoFault));
  }

  lemma CancelReads(s: System, row: Task)
    requires s.cancellers == map[] && row.id in s.rows && s.rows[row.id] == row && !row.IsTerminal()
    ensures
      var e := CancelRead(0, row.id);
      && Enabled(s, e)
      && Apply(s, e) == s.(cancellers := map[0 := Canceller(row.(state := Cancelled), Writing)])
  {
  }

  lemma CancelWrites(s: System, row: Task)
    requires s.cancellers == map[0 := Canceller(row.(state := Cancelled), Writing)]
    requires row.id in s.rows && s.rows[row.id] == row && !row.IsTerminal() && row.version >= 1
    ensures
      var e, r := CancelWrite(0, NoFault), DoCancelWrite(s, 0, NoFault);
      && Enabled(s, e) && Apply(s, e) == r
      && r == s.(rows := r.rows, cancellers := r.cancellers, history := r.history)
      && r.rows - {row.id} == s.rows - {row.id}
      && row.id in r.rows && r.rows[row.id].state == Cancelled && r.rows[row.id].version == row.version + 1
      && r.rows[row.id].id == row.id
      && r.cancellers == map[0 := Canceller(row.(state := Cancelled, version := row.version + 1), Removing)]
      && r.history == s.history.(content := r.history.content, cancelled := s.history.cancelled + {row.id})
  {
    assert DoCancelWrite(s, 0, NoFault).rows - {row.id} == s.rows - {row.id};
  }

  /** Its removal from the queue is lost, its signal published. */
  lemma Publish(b: Task, es: seq<Event>, s: System) returns (r: System)
    requires Exec(Anything, es) == Some(s) && CancelIn(s, 0, Removing)
    requires s.cancellers.Keys == {0} && s.cancellers[0].task.id == b.id
    ensures Exec(Anything, es + [CancelRemove(0, true)] + [CancelPublish(0, false)]) == Some(r)
    ensures r == s.(cancellers := map[], signals := s.signals + {b.id})
  {
    hide Exec, Removed, Get;
    var mid := Then(Anything, es, s, CancelRemove(0, true));
    r := Then(Anything, es + [CancelRemove(0, true)], mid, CancelPublish(0, false));
    assert mid.cancellers - {0} == map[];
  }

  /** The whole cancel while one worker has b. */
  lemma CancelNow(b: Task, row: Task, es: seq<Event>, s: System) returns (fs: seq<Event>, r: System, after: Task)
    requires Exec(Anything, es) == Some(s) && s.cancellers == map[] && b.id in s.rows && s.rows[b.id] == row
    requires row.id == b.id && !row.IsTerminal() && row.version >= 1
    ensures es <= fs && Exec(Anything, fs) == Some(r)
    ensures b.id in r.rows && r.rows[b.id] == after && r.rows - {b.id} == s.rows - {b.id}
    ensures after.state == Cancelled && after.version == row.version + 1 && after.id == b.id
    ensures r.attempts == s.attempts && r.cancels == s.cancels && r.redis == s.redis && r.cancellers == map[]
    ensures r.signals == s.signals + {b.id}
    ensures r.history == s.history.(content := r.history.content, cancelled := s.history.cancelled + {b.id})
  {
    hide Exec;
    r := CommitCancel(b, row, es, s);
    fs := es + [CancelRead(0, b.id)] + [CancelWrite(0, NoFault)];
    after := r.rows[b.id];
    r := Publish(b, fs, r);
    fs := fs + [CancelRemove(0, true)] + [CancelPublish(0, false)];
  }

  /** The signal arrives at a node. */
  lemma Hear(id: string, node: string, es: seq<Event>, s: System) returns (r: System)
    requires Exec(Anything, es) == Some(s) && id in s.signals
    ensures Exec(Anything, es + [Deliver(node, id)]) == Some(r)
    ensures
      var hearing := s.history.hearing;
      r == s.(attempts := r.attempts,
              history := s.history.(hearing := hearing.(delivered := hearing.delivered + {(node, id)})))
    ensures r.attempts.Keys == s.attempts.Keys
    ensures forall p | p in s.attempts && !((node, id) in s.cancels && s.cancels[(node, id)] == p) ::
              r.attempts[p] == s.attempts[p]
  {
    hide Exec;
    r := Then(Anything, es, s, Deliver(node, id));
  }
}
