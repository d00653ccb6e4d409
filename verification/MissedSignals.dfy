/** Why a cancel signal can go unheeded. For each of the four circumstances that the theorem about signals
    excepts, a run in which it is the only one and a handler runs on uncancelled although the signal has
    reached its node. */
module MissedSignals {
  import opened Entities
  import opened SortedSets
  import opened Keys
  import opened Queues
  import opened Timing
  import opened TaskTable
  import opened Protocol
  import opened Walks
  import opened Overwrites

  /** The handler of attempt p runs on, and the signal has been delivered to its node. */
  predicate RunsOn(s: System, p: nat, id: string) {
    && p in s.attempts && s.attempts[p].phase == Handling && s.attempts[p].task.id == id && !s.attempts[p].cancelled
    && (s.attempts[p].node, id) in s.history.hearing.delivered
  }

  // ----- before the registration -----

  /** The cancel commits and its signal arrives between the first check and the registration. */
  lemma SignalledEarly(b: Task) returns (es: seq<Event>, s: System, row: Task)
    requires Fresh(b)
    ensures Exec(Anything, es) == Some(s) && Working(s, b, row, 0, "n", Tracked)
    ensures row.state == Cancelled && row.version == 2
    ensures s.history.hearing.delivered == {("n", b.id)}
    ensures s.history.hearing.overwritten == {} && s.history.cleaned == {}
  {
    hide Exec, Permits, Queued, OffReady, HasRow;
    AnythingGoes();
    es, s := FromNothing(b);
    es, s := Reach(Anything, b, b, es, s, 0, "n");
    HasRowIs(s, b, b);
    var r;
    es, r, row := CancelNow(b, b, es, s);
    var h := Hear(b.id, "n", es, r);
    es := es + [Deliver("n", b.id)];
    SameQueues(s, h, b);
    StillHasRow(h, b, row);
    s := TrackIt(Anything, b, row, es, h, 0, "n");
    es := es + [Track(0)];
  }

  lemma HasRowIs(s: System, b: Task, row: Task)
    requires HasRow(s, b, row)
    ensures b.id in s.rows && s.rows[b.id] == row && b.id in s.history.created
    ensures s.history.created[b.id].queue == b.queue
  {
  }

  lemma StillHasRow(s: System, b: Task, row: Task)
    requires b.id in s.rows && s.rows[b.id] == row && b.id in s.history.created
    requires s.history.created[b.id].queue == b.queue
    ensures HasRow(s, b, row)
  {
  }

  /** The second check cannot be read. */
  lemma UnreadRun(b: Task) returns (es: seq<Event>)
    requires Fresh(b)
    ensures Exec(Anything, es).Some?
    ensures
      var s := Exec(Anything, es).value;
      && RunsOn(s, 0, b.id) && 0 in s.history.hearing.blind
      && 0 !in s.history.hearing.shadowed && b.id !in s.history.hearing.overwritten && b.id !in s.history.cleaned
  {
    hide Exec, OffReady;
    var s, row;
    es, s, row := SignalledEarly(b);
    s := Then(Anything, es, s, Recheck(0, false));
    es := es + [Recheck(0, false)];
    s := Then(Anything, es, s, Start(0, NoFault));
    es := es + [Start(0, NoFault)];
  }

  /** The row is cleaned up before the second check. */
  lemma CleanedRun(b: Task) returns (es: seq<Event>)
    requires Fresh(b)
    ensures Exec(Anything, es).Some?
    ensures
      var s := Exec(Anything, es).value;
      && RunsOn(s, 0, b.id) && b.id in s.history.cleaned
      && 0 !in s.history.hearing.shadowed && 0 !in s.history.hearing.blind && b.id !in s.history.hearing.overwritten
  {
    hide Exec, OffReady;
    var s, row;
    es, s, row := SignalledEarly(b);
    s := Then(Anything, es, s, Cleanup({b.id}));
    es := es + [Cleanup({b.id})];
    s := PassWithoutRow(b.id, es, s);
    es := es + [Recheck(0, true)] + [Start(0, NoFault)];
  }

  lemma PassWithoutRow(id: string, es: seq<Event>, s: System) returns (r: System)
    requires Exec(Anything, es) == Some(s) && InPhase(s, 0, Tracked) && s.attempts[0].task.id == id && id !in s.rows
    ensures Exec(Anything, es + [Recheck(0, true)] + [Start(0, NoFault)]) == Some(r)
    ensures InPhase(r, 0, Handling) && r.attempts[0].task.id == id && r.attempts[0].node == s.attempts[0].node
    ensures r.attempts[0].cancelled == s.attempts[0].cancelled && r.history == s.history
  {
    hide Exec;
    var mid := Then(Anything, es, s, Recheck(0, true));
    r := Then(Anything, es + [Recheck(0, true)], mid, Start(0, NoFault));
  }

  // ----- a cancel that was overwritten -----

  /** A failing handler with a retry left, on a row that a cancel has taken one version ahead. */
  lemma FailIt(b: Task, row: Task, es: seq<Event>, s: System, node: string) returns (r: System)
    requires Exec(Anything, es) == Some(s) && HandlerRuns(s, b, row, 0, node) && b.retryCount + 1 < b.maxRetries
    ensures Exec(Anything, es + [Return(0, false, false, true)]) == Some(r)
    ensures
      var t := b.(state := Retrying, version := b.version + 1, retryCount := b.retryCount + 1);
      && r.attempts.Keys == {0} && r.attempts[0].phase == Settling
      && r.attempts[0].task == t && r.attempts[0].node == node
      && r.rows == s.rows && r.redis == s.redis && r.cancellers == s.cancellers && r.signals == s.signals
      && r.history == s.history.(failures := r.history.failures)
  {
    hide Exec, Get;
    r := Then(Anything, es, s, Return(0, false, false, true));
  }

  lemma RetryIt(b: Task, row: Task, t: Task, es: seq<Event>, s: System) returns (r: System, after: Task)
    requires Exec(Anything, es) == Some(s) && s.attempts.Keys == {0}
    requires s.attempts[0].phase == Settling && s.attempts[0].task == t
    requires t.state == Retrying && t.id == b.id && HasRow(s, b, row)
    requires row.version == t.version && row.state == Cancelled && t.version >= 1
    ensures Exec(Anything, es + [Settle(0, NoFault)]) == Some(r)
    ensures HasRow(r, b, after) && after.state == Retrying && after.id == row.id
    ensures r.attempts.Keys == {0} && r.attempts[0].phase == Nacking
    ensures r.attempts[0].task == Bumped(t) && r.redis == s.redis
    ensures r.cancellers == s.cancellers && r.signals == s.signals && r.rows - {b.id} == s.rows - {b.id}
    ensures r.history == s.history.(content := r.history.content, hearing := r.history.hearing)
    ensures r.history.hearing == s.history.hearing.(overwritten := s.history.hearing.overwritten + {b.id})
  {
    hide Exec, Rivals;
    r := Then(Anything, es, s, Settle(0, NoFault));
    after := r.rows[b.id];
    assert r.rows - {b.id} == s.rows - {b.id};
  }

  /** The cancelled task is back in ready. */
  lemma QueueAgain(b: Task, row: Task, c: Task, es: seq<Event>, s: System) returns (r: System)
    requires Exec(Anything, es) == Some(s) && s.attempts.Keys == {0}
    requires s.attempts[0].phase == Nacking && s.attempts[0].task == c
    requires c.id == b.id && c.queue == b.queue && c.CanRetry()
    requires c.retryBackoff <= 0 && Clean(s) && HasRow(s, b, row) && OffReady(s, b)
    ensures Exec(Anything, es + [Nack(0, 0, 0, false)]) == Some(r)
    ensures Queued(r, c, row) && Around(r, c.id) == Around(s, b.id)
  {
    hide Exec, Agrees;
    r := Then(Anything, es, s, Nack(0, 0, 0, false));
    assert Rivals(s, 0) == {};
    assert Get(r.redis, b.queue).inflight == map[] && Get(r.redis, b.queue).lease == map[];
  }

  /** For every task with a retry and no backoff: a cancel that commits behind a worker whose handler then
      fails, and the cancelled task is queued to run again. */
  lemma CancelledRunsAgain(b: Task) returns (es: seq<Event>, s: System, c: Task, row: Task)
    requires Fresh(b) && b.maxRetries > 1 && b.retryBackoff <= 0
    ensures Exec(Anything, es) == Some(s) && Queued(s, c, row)
    ensures c.id == b.id && row.state == Retrying && c.version == 3
    ensures s.history.cancelled == {b.id} && s.history.cleaned == {} && s.history.hearing.overwritten == {b.id}
    ensures s.history.hearing.delivered == {("n", b.id)}
  {
    hide Exec, Permits, OffReady, Queued;
    AnythingGoes();
    es, s, row := CancelBehind(b, "m");
    var h := Hear(b.id, "n", es, s);
    es := es + [Deliver("n", b.id)];
    SameQueues(s, h, b);
    var after;
    s, after := StartIt(Anything, b, row, es, h, 0, "m");
    es := es + [Start(0, NoFault)];
    var f := FailIt(b, row, es, s, "m");
    es := es + [Return(0, false, false, true)];
    SameQueues(s, f, b);
    var t := f.attempts[0].task;
    var q;
    q, row := RetryIt(b, row, t, es, f);
    es := es + [Settle(0, NoFault)];
    SameQueues(f, q, b);
    c := Bumped(t);
    s := QueueAgain(b, row, c, es, q);
    es := es + [Nack(0, 0, 0, false)];
  }

  /** It is delivered to the node that has heard the signal. */
  lemma OverwrittenRun(b: Task) returns (es: seq<Event>)
    requires Fresh(b) && b.maxRetries > 1 && b.retryBackoff <= 0
    ensures Exec(Anything, es).Some?
    ensures
      var s := Exec(Anything, es).value;
      && RunsOn(s, 1, b.id) && b.id in s.history.hearing.overwritten
      && 1 !in s.history.hearing.shadowed && 1 !in s.history.hearing.blind && b.id !in s.history.cleaned
  {
    hide Exec, Permits, Queued, OffReady;
    AnythingGoes();
    var s, c, row;
    es, s, c, row := CancelledRunsAgain(b);
    es, s := Clear(Anything, c, row, es, s, 1, "n");
    s, row := StartIt(Anything, c, row, es, s, 1, "n");
    es := es + [Start(1, NoFault)];
  }

  // ----- a second delivery to the same node -----

  predicate FirstRuns(s: System, b: Task) {
    && 0 in s.attempts && s.attempts[0].phase == Handling && s.attempts[0].node == "n" && s.attempts[0].task.id == b.id
    && !s.attempts[0].cancelled && s.attempts[0].tracked
  }

  /** The first handler still runs while attempt 1 on the same node has the task too. */
  ghost predicate Both(s: System, b: Task, row: Task, phase: Phase) {
    && FirstRuns(s, b) && s.attempts.Keys == {0, 1} && s.attempts[1].node == "n"
    && s.attempts[1].task == b && s.attempts[1].phase == phase
    && b.id in s.rows && s.rows[b.id] == row && s.cancellers == map[] && s.history.hearing.blind == {}
    && s.history.hearing.overwritten == {} && s.history.cleaned == {}
    && (phase == Tracked || s.history.hearing.shadowed == {})
  }

  lemma Expire(b: Task, row: Task, es: seq<Event>, s: System) returns (e: Event, r: System)
    requires Exec(Anything, es) == Some(s) && HandlerRuns(s, b, row, 0, "n") && Agrees(b.queue)
    ensures Exec(Anything, es + [e]) == Some(r) && r == s.(redis := r.redis) && Get(r.redis, b.queue).ready.Keys == {b}
  {
    hide Exec, Agrees;
    var q := Get(s.redis, b.queue);
    var now := q.lease[b.id];
    assert Due(q.lease, now) == {b.id};
    e := Reclaim(b.queue, now, 100, [b.id]);
    r := Then(Anything, es, s, e);
    assert Elements([b.id]) == {b.id};
    assert Stranded(q, {b.id}) == {b} by {
      assert q.inflight[b.id] == b;
    }
  }

  lemma FetchAgain(b: Task, row: Task, es: seq<Event>, s: System) returns (r: System)
    requires Exec(Anything, es) == Some(s) && FirstRuns(s, b)
    requires s.attempts.Keys == {0} && b.id in s.rows && s.rows[b.id] == row
    requires s.cancellers == map[] && Clean(s) && s.history.hearing.overwritten == {} && s.history.cleaned == {}
    requires Get(s.redis, b.queue).ready.Keys == {b}
    ensures Exec(Anything, es + [Fetch(1, "n", b.queue, b, 0)]) == Some(r) && Both(r, b, row, Fetched)
  {
    hide Exec, Dequeued;
    r := Then(Anything, es, s, Fetch(1, "n", b.queue, b, 0));
  }

  lemma ExtendAgain(b: Task, row: Task, es: seq<Event>, s: System) returns (r: System)
    requires Exec(Anything, es) == Some(s) && Both(s, b, row, Fetched)
    ensures Exec(Anything, es + [Extend(1)]) == Some(r) && Both(r, b, row, Loaded)
  {
    hide Exec, VisibilityMs, LongLease, Leased, Get;
    r := Then(Anything, es, s, Extend(1));
  }

  lemma ScreenAgain(b: Task, row: Task, es: seq<Event>, s: System) returns (r: System)
    requires Exec(Anything, es) == Some(s) && Both(s, b, row, Loaded) && !row.IsTerminal()
    ensures Exec(Anything, es + [Screen(1, true)]) == Some(r) && Both(r, b, row, Screened)
  {
    hide Exec;
    r := Then(Anything, es, s, Screen(1, true));
  }

  lemma TrackAgain(b: Task, row: Task, es: seq<Event>, s: System) returns (r: System)
    requires Exec(Anything, es) == Some(s) && Both(s, b, row, Screened)
    ensures Exec(Anything, es + [Track(1)]) == Some(r) && Both(r, b, row, Tracked)
    ensures ("n", b.id) in r.cancels && r.cancels[("n", b.id)] == 1 && 0 in r.history.hearing.shadowed
  {
    hide Exec;
    r := Then(Anything, es, s, Track(1));
    assert 0 in Rivals(s, 1);
  }

  lemma TwiceDelivered(b: Task) returns (es: seq<Event>, s: System, row: Task)
    requires Fresh(b) && Agrees(b.queue)
    ensures Exec(Anything, es) == Some(s) && Both(s, b, row, Tracked)
    ensures !row.IsTerminal() && row.id == b.id && row.version >= 1
    ensures ("n", b.id) in s.cancels && s.cancels[("n", b.id)] == 1 && 0 in s.history.hearing.shadowed
  {
    hide Exec, Permits, Queued, OffReady, Both, Enabled, Apply, Get;
    AnythingGoes();
    es, s := FromNothing(b);
    es, s := Clear(Anything, b, b, es, s, 0, "n");
    s, row := StartIt(Anything, b, b, es, s, 0, "n");
    es := es + [Start(0, NoFault)];
    var e;
    e, s := Expire(b, row, es, s);
    es := es + [e];
    s := FetchAgain(b, row, es, s);
    es := es + [Fetch(1, "n", b.queue, b, 0)];
    s := ExtendAgain(b, row, es, s);
    es := es + [Extend(1)];
    s := ScreenAgain(b, row, es, s);
    es := es + [Screen(1, true)];
    s := TrackAgain(b, row, es, s);
    es := es + [Track(1)];
  }

  /** The second registration takes the entry, so the signal leaves the first handler's context alone. */
  lemma ShadowedRun(b: Task) returns (es: seq<Event>)
    requires Fresh(b) && Agrees(b.queue)
    ensures Exec(Anything, es).Some?
    ensures
      var s := Exec(Anything, es).value;
      && RunsOn(s, 0, b.id) && 0 in s.history.hearing.shadowed
      && 0 !in s.history.hearing.blind && b.id !in s.history.hearing.overwritten && b.id !in s.history.cleaned
  {
    hide Exec, Enabled, Apply;
    var s, row, after;
    es, s, row := TwiceDelivered(b);
    es, s, after := CancelNow(b, row, es, s);
    s := Hear(b.id, "n", es, s);
    es := es + [Deliver("n", b.id)];
  }
}
