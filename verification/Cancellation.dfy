/** No lost cancel. A node has one cancel-map entry per task id, so a signal reaches the attempt that the
    entry names: an attempt keeps its entry exactly until another attempt of the task registers or ends on
    the same node. A signal that comes before the registration is replaced by the second state check,
    which sees the committed cancel unless it cannot be read, the row was cleaned up or the cancel was
    overwritten. Under no other circumstances does a handler run on uncancelled. */
module Cancellation {
  import opened Entities
  import opened SortedSets
  import opened Queues
  import opened Timing
  import opened TaskTable
  import opened Protocol
  import opened Shape
  import opened Frames

  // ----- the invariant -----

  predicate Registered(phase: Phase) {
    phase == Tracked || phase == Cleared || phase == Handling || phase == Settling || phase == Nacking
  }

  predicate Unregistered(phase: Phase) {
    phase == Fetched || phase == Loaded || phase == Screened
  }

  predicate PhaseOk(a: Attempt) {
    (Registered(a.phase) ==> a.tracked) && (Unregistered(a.phase) ==> !a.tracked) && (a.cancelled ==> a.tracked)
  }

  /** The node's entry for the attempt's task names this attempt. */
  predicate HasEntry(cancels: map<(string, string), nat>, p: nat, a: Attempt) {
    (a.node, a.task.id) in cancels && cancels[(a.node, a.task.id)] == p
  }

  predicate EntryOk(cancels: map<(string, string), nat>, shadowed: set<nat>, p: nat, a: Attempt) {
    && (a.tracked ==> (HasEntry(cancels, p, a) <==> p !in shadowed))
    && (!a.tracked ==> p !in shadowed)
  }

  /** Nothing came between the attempt and its task's cancel. */
  predicate InReach(h: History, p: nat, id: string) {
    p !in h.hearing.shadowed && p !in h.hearing.blind && id !in h.hearing.overwritten && id !in h.cleaned
  }

  predicate Started(phase: Phase) {
    phase == Cleared || phase == Handling
  }

  predicate Hears(h: History, p: nat, a: Attempt) {
    Started(a.phase) && (a.node, a.task.id) in h.hearing.delivered && InReach(h, p, a.task.id) ==> a.cancelled
  }

  predicate AttemptHears(s: System, p: nat, a: Attempt) {
    PhaseOk(a) && EntryOk(s.cancels, s.history.hearing.shadowed, p, a) && Hears(s.history, p, a)
  }

  ghost predicate AllHear(s: System) {
    forall p | p in s.attempts :: AttemptHears(s, p, s.attempts[p])
  }

  /** A signal exists only for a committed cancel. */
  ghost predicate Founded(s: System) {
    && s.signals <= s.history.cancelled <= s.history.created.Keys
    && (forall k | k in s.history.hearing.delivered :: k.1 in s.history.cancelled)
    && (forall c | c in s.cancellers ::
          s.cancellers[c].phase == Writing || s.cancellers[c].task.id in s.history.cancelled)
  }

  predicate StandsFor(s: System, id: string) {
    id in s.history.cancelled && id !in s.history.hearing.overwritten && id !in s.history.cleaned ==>
      id in s.rows && s.rows[id].state == Cancelled
  }

  /** A committed cancel that nobody overwrote or cleaned up is still in the row. */
  ghost predicate CancelsStand(s: System) {
    forall id :: StandsFor(s, id)
  }

  predicate Names(attempts: map<nat, Attempt>, k: (string, string), p: nat) {
    p in attempts && attempts[p].tracked && attempts[p].node == k.0 && attempts[p].task.id == k.1
  }

  /** An entry names a registered attempt of its task on its node. */
  ghost predicate EntriesLive(s: System) {
    forall k | k in s.cancels :: Names(s.attempts, k, s.cancels[k])
  }

  ghost predicate Attentive(s: System) {
    AllHear(s) && Founded(s) && CancelsStand(s) && EntriesLive(s)
  }

  // ----- parts of a step -----

  predicate Louder(h: Hearing, g: Hearing) {
    h.delivered == g.delivered && h.shadowed <= g.shadowed && h.blind <= g.blind && h.overwritten <= g.overwritten
  }

  /** An attempt that the step does not touch: its entry is as it was, and it got no harder to reach. */
  lemma StillHears(s: System, r: System, p: nat, a: Attempt)
    requires AttemptHears(s, p, a) && Louder(s.history.hearing, r.history.hearing)
    requires s.history.cleaned <= r.history.cleaned
    requires p in r.history.hearing.shadowed <==> p in s.history.hearing.shadowed
    requires HasEntry(r.cancels, p, a) <==> HasEntry(s.cancels, p, a)
    ensures AttemptHears(r, p, a)
  {
    hide HasEntry;
  }

  /** Attempt p moves from a to b under the same registration. */
  lemma MovedHears(s: System, r: System, p: nat, b: Attempt)
    requires AllHear(s) && p in s.attempts && r.attempts == s.attempts[p := b] && r.cancels == s.cancels
    requires Louder(s.history.hearing, r.history.hearing) && r.history.hearing.shadowed == s.history.hearing.shadowed
    requires s.history.cleaned <= r.history.cleaned
    requires b.node == s.attempts[p].node && b.task.id == s.attempts[p].task.id && b.tracked == s.attempts[p].tracked
    requires PhaseOk(b) && Hears(r.history, p, b)
    ensures AllHear(r)
  {
    hide AttemptHears;
    forall x | x in r.attempts ensures AttemptHears(r, x, r.attempts[x]) {
      assert AttemptHears(s, x, s.attempts[x]);
      if x != p {
        StillHears(s, r, x, s.attempts[x]);
      } else {
        MovedEntry(s, r, p, b);
      }
    }
  }

  lemma MovedEntry(s: System, r: System, p: nat, b: Attempt)
    requires p in s.attempts && AttemptHears(s, p, s.attempts[p]) && r.cancels == s.cancels
    requires r.history.hearing.shadowed == s.history.hearing.shadowed
    requires b.node == s.attempts[p].node && b.task.id == s.attempts[p].task.id && b.tracked == s.attempts[p].tracked
    requires PhaseOk(b) && Hears(r.history, p, b)
    ensures AttemptHears(r, p, b)
  {
  }

  lemma SameHear(s: System, r: System)
    requires AllHear(s) && r.attempts == s.attempts && r.cancels == s.cancels
    requires Louder(s.history.hearing, r.history.hearing) && r.history.hearing.shadowed == s.history.hearing.shadowed
    requires s.history.cleaned <= r.history.cleaned
    ensures AllHear(r)
  {
    hide AttemptHears;
    forall p | p in r.attempts ensures AttemptHears(r, p, r.attempts[p]) {
      assert AttemptHears(s, p, s.attempts[p]);
      StillHears(s, r, p, s.attempts[p]);
    }
  }

  lemma SameFounded(s: System, r: System)
    requires Founded(s) && r.signals == s.signals && r.cancellers == s.cancellers
    requires r.history.cancelled == s.history.cancelled
    requires s.history.created.Keys <= r.history.created.Keys
    requires r.history.hearing.delivered == s.history.hearing.delivered
    ensures Founded(r)
  {
  }

  lemma SameStand(s: System, r: System)
    requires CancelsStand(s) && r.rows == s.rows && r.history.cancelled == s.history.cancelled
    requires s.history.hearing.overwritten <= r.history.hearing.overwritten && s.history.cleaned <= r.history.cleaned
    ensures CancelsStand(r)
  {
    forall id ensures StandsFor(r, id) {
      assert StandsFor(s, id);
    }
  }

  /** The attempts that entries name stay registered. */
  lemma EntriesStay(s: System, r: System)
    requires EntriesLive(s) && (forall k | k in r.cancels :: k in s.cancels && r.cancels[k] == s.cancels[k])
    requires forall k | k in r.cancels && Names(s.attempts, k, s.cancels[k]) :: Names(r.attempts, k, s.cancels[k])
    ensures EntriesLive(r)
  {
    hide Names;
  }

  lemma EntriesMove(s: System, r: System, p: nat, b: Attempt)
    requires EntriesLive(s) && r.cancels == s.cancels && p in s.attempts && r.attempts == s.attempts[p := b]
    requires b.node == s.attempts[p].node && b.task.id == s.attempts[p].task.id && b.tracked == s.attempts[p].tracked
    ensures EntriesLive(r)
  {
    EntriesStay(s, r);
  }

  /** Steps of no attempt, beside the rows and the cancels. */
  lemma AttentiveSame(s: System, r: System)
    requires Attentive(s) && r.attempts == s.attempts && r.cancels == s.cancels
    requires r.rows == s.rows && r.signals == s.signals
    requires r.cancellers == s.cancellers && r.history.cancelled == s.history.cancelled
    requires r.history.cleaned == s.history.cleaned
    requires r.history.hearing == s.history.hearing && s.history.created.Keys <= r.history.created.Keys
    ensures Attentive(r)
  {
    hide AllHear, Founded, CancelsStand, Names;
    SameHear(s, r);
    SameFounded(s, r);
    SameStand(s, r);
  }

  /** Attempt p moves; nothing else changes but what was heard less. */
  lemma AttentiveMove(s: System, r: System, p: nat, b: Attempt)
    requires Attentive(s) && p in s.attempts && r.attempts == s.attempts[p := b]
    requires r.cancels == s.cancels && r.rows == s.rows
    requires r.signals == s.signals && r.cancellers == s.cancellers
    requires r.history.cancelled == s.history.cancelled
    requires r.history.cleaned == s.history.cleaned && r.history.created == s.history.created
    requires Louder(s.history.hearing, r.history.hearing) && r.history.hearing.shadowed == s.history.hearing.shadowed
    requires b.node == s.attempts[p].node && b.task.id == s.attempts[p].task.id && b.tracked == s.attempts[p].tracked
    requires PhaseOk(b) && Hears(r.history, p, b)
    ensures Attentive(r)
  {
    hide AllHear, Founded, CancelsStand, Hears, PhaseOk, EntriesLive;
    EntriesMove(s, r, p, b);
    MovedHears(s, r, p, b);
    SameFounded(s, r);
    SameStand(s, r);
  }

  lemma PhaseIs(s: System, p: nat)
    requires Attentive(s) && p in s.attempts
    ensures AttemptHears(s, p, s.attempts[p])
  {
    hide Founded, CancelsStand, AttemptHears, EntriesLive;
  }

  // ----- attempts -----

  lemma AttentiveFetch(s: System, p: nat, node: string, name: string, t: Task, now: int)
    requires Attentive(s) && p !in s.attempts
    ensures Attentive(DoFetch(s, p, node, name, t, now))
  {
    hide Founded, CancelsStand, Dequeued, AttemptHears, EntriesLive;
    var r := DoFetch(s, p, node, name, t, now);
    forall x | x in r.attempts ensures AttemptHears(r, x, r.attempts[x]) {
      if x == p {
        FreshHears(r, p);
      } else {
        assert AttemptHears(s, x, s.attempts[x]);
        OtherHears(s, r, p, x, s.attempts[x]);
      }
    }
    EntriesStay(s, r);
    SameFounded(s, r);
    SameStand(s, r);
  }

  lemma FreshHears(r: System, p: nat)
    requires p in r.attempts && r.attempts[p].phase == Fetched && !r.attempts[p].tracked && !r.attempts[p].cancelled
    requires p !in r.history.hearing.shadowed
    ensures AttemptHears(r, p, r.attempts[p])
  {
  }

  /** The number of a new attempt says nothing about the others. */
  lemma OtherHears(s: System, r: System, p: nat, x: nat, a: Attempt)
    requires x != p && AttemptHears(s, x, a) && r.cancels == s.cancels && r.history.cleaned == s.history.cleaned
    requires r.history.hearing
             == s.history.hearing.(shadowed := s.history.hearing.shadowed - {p}, blind := s.history.hearing.blind - {p})
    ensures AttemptHears(r, x, a)
  {
    hide HasEntry;
  }

  lemma AttentiveExtend(s: System, p: nat)
    requires Attentive(s) && p in s.attempts && s.attempts[p].phase == Fetched
    ensures Attentive(DoExtend(s, p)) && p in DoExtend(s, p).attempts
  {
    hide Attentive, Leased, LongLease, VisibilityMs, Get;
    PhaseIs(s, p);
    AttentiveMove(s, DoExtend(s, p), p, s.attempts[p].(phase := Loaded));
  }

  lemma AttentiveScreen(s: System, p: nat, readable: bool)
    requires Attentive(s) && p in s.attempts && s.attempts[p].phase == Loaded
    ensures Attentive(DoScreen(s, p, readable))
  {
    hide Attentive, SeesTerminal;
    PhaseIs(s, p);
    AttentiveMove(s, DoScreen(s, p, readable), p, DoScreen(s, p, readable).attempts[p]);
  }

  /** Registering takes the entry from the rivals, ending deletes it: either way they are shadowed. */
  lemma RivalsLose(s: System, r: System, p: nat, x: nat)
    requires p in s.attempts && x in s.attempts && x != p && AttemptHears(s, x, s.attempts[x])
    requires r.history == Shadow(s, p)
    requires var k := (s.attempts[p].node, s.attempts[p].task.id);
             r.cancels == s.cancels[k := p] || r.cancels == s.cancels - {k}
    ensures AttemptHears(r, x, s.attempts[x])
  {
    assert x in Rivals(s, p) <==> s.attempts[x].tracked && s.attempts[x].node == s.attempts[p].node
                                  && s.attempts[x].task.id == s.attempts[p].task.id;
  }

  lemma AttentiveTrack(s: System, p: nat)
    requires Attentive(s) && p in s.attempts && s.attempts[p].phase == Screened
    ensures Attentive(DoTrack(s, p))
  {
    hide Founded, CancelsStand, AttemptHears, Shadow, EntriesLive;
    var r := DoTrack(s, p);
    forall x | x in r.attempts ensures AttemptHears(r, x, r.attempts[x]) {
      assert AttemptHears(s, x, s.attempts[x]);
      if x != p {
        RivalsLose(s, r, p, x);
      } else {
        RegisteredHears(s, r, p);
      }
    }
    EntriesTracked(s, p);
    ShadowOnly(s, p);
    SameFounded(s, r);
    SameStand(s, r);
  }

  lemma EntriesTracked(s: System, p: nat)
    requires EntriesLive(s) && p in s.attempts
    ensures EntriesLive(DoTrack(s, p))
  {
    hide Shadow;
    var r, a := DoTrack(s, p), s.attempts[p];
    forall k | k in r.cancels ensures Names(r.attempts, k, r.cancels[k]) {
      if k != (a.node, a.task.id) {
        assert Names(s.attempts, k, s.cancels[k]);
      }
    }
  }

  lemma EntriesExit(s: System, p: nat)
    requires EntriesLive(s) && p in s.attempts
    ensures EntriesLive(Exit(s, p))
  {
    hide Shadow;
    var r := Exit(s, p);
    forall k | k in r.cancels ensures Names(r.attempts, k, r.cancels[k]) {
      assert Names(s.attempts, k, s.cancels[k]);
    }
  }

  lemma EntriesCrash(s: System, node: string)
    requires EntriesLive(s)
    ensures EntriesLive(DoCrash(s, node))
  {
    var r := DoCrash(s, node);
    forall k | k in r.cancels ensures Names(r.attempts, k, r.cancels[k]) {
      assert Names(s.attempts, k, s.cancels[k]);
    }
  }

  lemma RegisteredHears(s: System, r: System, p: nat)
    requires p in s.attempts && AttemptHears(s, p, s.attempts[p])
    requires s.attempts[p].phase == Screened && r == DoTrack(s, p)
    ensures AttemptHears(r, p, r.attempts[p])
  {
    assert p !in Rivals(s, p);
  }

  lemma ShadowOnly(s: System, p: nat)
    requires p in s.attempts
    ensures Shadow(s, p) == s.history.(hearing := Shadow(s, p).hearing)
    ensures Louder(s.history.hearing, Shadow(s, p).hearing)
    ensures Shadow(s, p).hearing.overwritten == s.history.hearing.overwritten
  {
    hide Rivals;
  }

  lemma AttentiveExit(s: System, p: nat)
    requires Attentive(s) && p in s.attempts
    ensures Attentive(Exit(s, p))
  {
    hide Founded, CancelsStand, AttemptHears, Shadow, EntriesLive;
    var r := Exit(s, p);
    forall x | x in r.attempts ensures AttemptHears(r, x, r.attempts[x]) {
      assert AttemptHears(s, x, s.attempts[x]);
      if s.attempts[p].tracked {
        RivalsLose(s, r, p, x);
      } else {
        StillHears(s, r, x, s.attempts[x]);
      }
    }
    EntriesExit(s, p);
    ShadowOnly(s, p);
    SameFounded(s, r);
    SameStand(s, r);
  }

  /** Passing a second check that could be read means that there is no committed cancel in reach. */
  lemma ClearedIsUncancelled(s: System, r: System, p: nat, readable: bool)
    requires Attentive(s) && p in s.attempts && s.attempts[p].phase == Tracked && r == DoRecheck(s, p, readable)
    ensures Hears(r.history, p, r.attempts[p])
  {
    hide AllHear, EntriesLive;
    assert StandsFor(s, s.attempts[p].task.id);
  }

  lemma AttentiveRecheck(s: System, p: nat, readable: bool)
    requires Attentive(s) && p in s.attempts && s.attempts[p].phase == Tracked
    ensures Attentive(DoRecheck(s, p, readable))
  {
    hide Attentive, SeesTerminal, Hears;
    PhaseIs(s, p);
    ClearedIsUncancelled(s, DoRecheck(s, p, readable), p, readable);
    AttentiveMove(s, DoRecheck(s, p, readable), p, DoRecheck(s, p, readable).attempts[p]);
  }

  // ----- writes -----

  lemma WriteHearing(s: System, t: Task, fault: Fault)
    ensures Louder(s.history.hearing, Write(s, t, fault).history.hearing)
    ensures Write(s, t, fault).history.hearing.shadowed == s.history.hearing.shadowed
  {
    hide Commits, Committed;
  }

  /** A commit either leaves the cancelled rows alone or is recorded as overwriting one. */
  lemma WriteStands(s: System, t: Task, fault: Fault)
    requires CancelsStand(s)
    ensures CancelsStand(Write(s, t, fault))
  {
    var w := Write(s, t, fault);
    forall id ensures StandsFor(w, id) {
      assert StandsFor(s, id);
    }
  }

  lemma AttentiveWrite(s: System, t: Task, fault: Fault)
    requires Attentive(s)
    ensures Attentive(Write(s, t, fault))
  {
    hide AllHear, Founded, CancelsStand, Write, LockHolds, Commits, Names;
    var w := Write(s, t, fault);
    WriteStands(s, t, fault);
    WriteHearing(s, t, fault);
    WriteFrame(s, t, fault);
    SameHear(s, w);
    SameFounded(s, w);
  }

  lemma AttentiveStart(s: System, p: nat, fault: Fault)
    requires Attentive(s) && p in s.attempts && s.attempts[p].phase == Cleared
    ensures Attentive(DoStart(s, p, fault))
  {
    hide Attentive, Write, LockHolds, Commits, Succeeds, InReach;
    var t := s.attempts[p].task.(state := Running);
    var w, r := Write(s, t, fault), DoStart(s, p, fault);
    AttentiveWrite(s, t, fault);
    WriteFrame(s, t, fault);
    PhaseIs(w, p);
    AttentiveMove(w, r, p, r.attempts[p]);
  }

  lemma AttentiveSettle(s: System, p: nat, fault: Fault)
    requires Attentive(s) && p in s.attempts && s.attempts[p].phase == Settling
    ensures Attentive(DoSettle(s, p, fault))
  {
    hide Attentive, Write, LockHolds, Commits, Succeeds, Exit;
    var a := s.attempts[p];
    var w := Write(s, a.task, fault);
    AttentiveWrite(s, a.task, fault);
    WriteFrame(s, a.task, fault);
    PhaseIs(w, p);
    AttentiveExit(w, p);
    var next := if a.task.state == Retrying then Nacking else Acking;
    var b := a.(task := Bumped(a.task), phase := next);
    AttentiveMove(w, w.(attempts := s.attempts[p := b]), p, b);
  }

  lemma AttentiveFail(s: System, p: nat)
    requires Attentive(s) && p in s.attempts && (s.attempts[p].phase == Cleared || s.attempts[p].phase == Handling)
    ensures Attentive(DoFail(s, p)) && Attentive(MoveTo(s, p, Acking))
    ensures Attentive(Decide(s, p, s.attempts[p].task.(state := Completed)))
  {
    hide Attentive, HasEntry;
    PhaseIs(s, p);
    AttentiveMove(s, DoFail(s, p), p, DoFail(s, p).attempts[p]);
    AttentiveMove(s, MoveTo(s, p, Acking), p, s.attempts[p].(phase := Acking));
    var done := Decide(s, p, s.attempts[p].task.(state := Completed));
    AttentiveMove(s, done, p, done.attempts[p]);
  }

  lemma AttentiveReturn(s: System, p: nat, ok: bool, shutdown: bool, readable: bool)
    requires Attentive(s) && p in s.attempts && s.attempts[p].phase == Handling
    ensures Attentive(DoReturn(s, p, ok, shutdown, readable))
  {
    hide Attentive, DoFail, MoveTo, Decide;
    AttentiveFail(s, p);
  }

  lemma AttentiveAck(s: System, p: nat, lost: bool)
    requires Attentive(s) && p in s.attempts
    ensures Attentive(DoAck(s, p, lost))
  {
    hide Attentive, Exit, Acked, Get;
    var t := s.attempts[p].task;
    var acked := OnQueue(s, t.queue, Acked(Get(s.redis, t.queue), t.id));
    AttentiveSame(s, acked);
    AttentiveExit(s, p);
    AttentiveExit(acked, p);
  }

  lemma AttentiveNack(s: System, p: nat, at: int, lost: bool)
    requires Attentive(s) && p in s.attempts
    ensures Attentive(DoNack(s, p, at, lost))
  {
    hide Attentive, Exit, Nacked, Get;
    var t := s.attempts[p].task;
    var nacked := Issue(OnQueue(s, t.queue, Nacked(Get(s.redis, t.queue), t, at)), t);
    AttentiveSame(s, nacked);
    AttentiveSame(s, Schedule(nacked, t, at));
    AttentiveExit(s, p);
    AttentiveExit(nacked, p);
    AttentiveExit(Schedule(nacked, t, at), p);
  }

  lemma AttentiveCrash(s: System, node: string)
    requires Attentive(s)
    ensures Attentive(DoCrash(s, node))
  {
    hide Founded, CancelsStand, AttemptHears, EntriesLive;
    EntriesCrash(s, node);
    var r := DoCrash(s, node);
    forall x | x in r.attempts ensures AttemptHears(r, x, r.attempts[x]) {
      assert AttemptHears(s, x, s.attempts[x]);
      StillHears(s, r, x, s.attempts[x]);
    }
    SameFounded(s, r);
    SameStand(s, r);
  }

  // ----- cancellers and signals -----

  lemma AttentiveCancelRead(s: System, c: nat, id: string)
    requires Attentive(s) && id in s.rows
    ensures Attentive(DoCancelRead(s, c, id))
  {
    hide AllHear, CancelsStand, Names;
    var r := DoCancelRead(s, c, id);
    SameHear(s, r);
    SameStand(s, r);
  }

  /** A committed cancel stands in the row it wrote. */
  lemma CancelStands(s: System, c: nat, fault: Fault)
    requires CancelsStand(s) && c in s.cancellers && s.cancellers[c].task.state == Cancelled
    ensures CancelsStand(DoCancelWrite(s, c, fault))
  {
    hide Write;
    var t, r := s.cancellers[c].task, DoCancelWrite(s, c, fault);
    WriteStands(s, t, fault);
    WriteFrame(s, t, fault);
    forall id ensures StandsFor(r, id) {
      assert StandsFor(Write(s, t, fault), id);
    }
  }

  lemma CancelFounded(s: System, c: nat, fault: Fault)
    requires Founded(s) && c in s.cancellers && s.cancellers[c].task.id in s.history.created
    ensures Founded(DoCancelWrite(s, c, fault))
  {
    hide Write, LockHolds;
    var t, r := s.cancellers[c].task, DoCancelWrite(s, c, fault);
    WriteFrame(s, t, fault);
    WriteHearing(s, t, fault);
    assert s.history.cancelled <= r.history.cancelled <= s.history.cancelled + {t.id};
    assert Succeeds(s.rows, t, fault) ==> t.id in r.history.cancelled;
  }

  lemma AttentiveCancelWrite(s: System, c: nat, fault: Fault)
    requires Attentive(s) && c in s.cancellers && s.cancellers[c].task.state == Cancelled
    requires s.cancellers[c].task.id in s.history.created
    ensures Attentive(DoCancelWrite(s, c, fault))
  {
    hide AllHear, Founded, CancelsStand, Write, Succeeds, Commits, LockHolds, Names;
    var r := DoCancelWrite(s, c, fault);
    CancelStands(s, c, fault);
    CancelFounded(s, c, fault);
    WriteHearing(s, s.cancellers[c].task, fault);
    WriteFrame(s, s.cancellers[c].task, fault);
    SameHear(s, r);
  }

  lemma AttentiveCancelRemove(s: System, c: nat, lost: bool)
    requires Attentive(s) && c in s.cancellers && s.cancellers[c].phase == Removing
    ensures Attentive(DoCancelRemove(s, c, lost))
  {
    hide AllHear, CancelsStand, Removed, Get, Names;
    var r := DoCancelRemove(s, c, lost);
    SameHear(s, r);
    SameStand(s, r);
  }

  lemma AttentiveCancelPublish(s: System, c: nat, lost: bool)
    requires Attentive(s) && c in s.cancellers && s.cancellers[c].phase == Publishing
    ensures Attentive(DoCancelPublish(s, c, lost))
  {
    hide AllHear, CancelsStand, Names;
    var r := DoCancelPublish(s, c, lost);
    SameHear(s, r);
    SameStand(s, r);
  }

  lemma DeliverIs(s: System, node: string, id: string)
    ensures
      var r, k := DoDeliver(s, node, id), (node, id);
      && r == s.(attempts := r.attempts,
                 history := s.history.(hearing := s.history.hearing.(delivered := s.history.hearing.delivered + {k})))
      && r.attempts.Keys == s.attempts.Keys
      && forall p | p in s.attempts ::
           r.attempts[p] == if k in s.cancels && s.cancels[k] == p
                            then s.attempts[p].(cancelled := true) else s.attempts[p]
  {
  }

  lemma DeliveredTo(s: System, r: System, node: string, id: string, p: nat, a: Attempt)
    requires AttemptHears(s, p, a) && r.cancels == s.cancels
    requires (node, id) in s.cancels && s.cancels[(node, id)] == p ==> a.tracked
    requires r.history
             == s.history.(hearing := s.history.hearing.(delivered := s.history.hearing.delivered + {(node, id)}))
    ensures
      var k := (node, id);
      AttemptHears(r, p, if k in s.cancels && s.cancels[k] == p then a.(cancelled := true) else a)
  {
  }

  lemma AttentiveDeliver(s: System, node: string, id: string)
    requires Attentive(s) && id in s.signals
    ensures Attentive(DoDeliver(s, node, id))
  {
    hide Founded, CancelsStand, AttemptHears, DoDeliver;
    var r := DoDeliver(s, node, id);
    DeliverIs(s, node, id);
    assert EntriesLive(r) by {
      EntriesStay(s, r);
    }
    forall p | p in r.attempts ensures AttemptHears(r, p, r.attempts[p]) {
      assert AttemptHears(s, p, s.attempts[p]);
      assert (node, id) in s.cancels ==> Names(s.attempts, (node, id), s.cancels[(node, id)]);
      DeliveredTo(s, r, node, id, p, s.attempts[p]);
    }
    DeliveredFounded(s, r, node, id);
    SameStand(s, r);
  }

  lemma DeliveredFounded(s: System, r: System, node: string, id: string)
    requires Founded(s) && id in s.signals && r.signals == s.signals && r.cancellers == s.cancellers
    requires r.history.cancelled == s.history.cancelled && r.history.created == s.history.created
    requires r.history.hearing.delivered == s.history.hearing.delivered + {(node, id)}
    ensures Founded(r)
  {
  }

  lemma AttentiveCreate(s: System, t: Task, now: int)
    requires Attentive(s) && t.id !in s.history.created
    ensures Attentive(DoCreate(s, t, now))
  {
    hide AllHear, Names;
    var r := DoCreate(s, t, now);
    SameHear(s, r);
    forall id ensures StandsFor(r, id) {
      assert StandsFor(s, id);
    }
  }

  lemma AttentiveCleanup(s: System, gone: set<string>)
    requires Attentive(s)
    ensures Attentive(DoCleanup(s, gone))
  {
    hide AllHear, Founded, Names;
    var r := DoCleanup(s, gone);
    SameHear(s, r);
    SameFounded(s, r);
    forall id ensures StandsFor(r, id) {
      assert StandsFor(s, id);
    }
  }

  lemma AttentiveQueue(s: System, t: Task, at: int)
    requires Attentive(s)
    ensures Attentive(DoEnqueue(s, t)) && Attentive(DoEnqueueDelayed(s, t, at))
  {
    hide Attentive, Enqueued, Queues.Delayed, Get;
    AttentiveSame(s, DoEnqueue(s, t));
    AttentiveSame(s, DoEnqueueDelayed(s, t, at));
  }

  lemma AttentiveCompensate(s: System, t: Task)
    requires Attentive(s)
    ensures Attentive(DoCompensate(s, t))
  {
    hide Attentive, Compensated, Get;
    AttentiveSame(s, DoCompensate(s, t));
  }

  lemma AttentiveScan(s: System, t: Task, id: string, now: int)
    requires Attentive(s)
    ensures Attentive(DoScan(s, t, now)) && Attentive(DoTouch(s, id, now))
  {
    hide Attentive;
    AttentiveSame(s, DoScan(s, t, now));
    AttentiveSame(s, DoTouch(s, id, now));
  }

  lemma AttentiveBatch(s: System, name: string, now: int, ts: seq<Task>, ids: seq<string>)
    requires Attentive(s)
    ensures Attentive(DoPromote(s, name, now, ts))
    ensures Attentive(OnQueue(s, name, Reclaimed(Get(s.redis, name), Elements(ids))))
  {
    hide Attentive, Promoted, Reclaimed, Get, Elements, Stamped;
    AttentiveSame(s, DoPromote(s, name, now, ts));
    AttentiveSame(s, OnQueue(s, name, Reclaimed(Get(s.redis, name), Elements(ids))));
  }

  lemma CancellerIsCreated(s: System, c: nat)
    requires WellShaped(s) && c in s.cancellers
    ensures s.cancellers[c].task.id in s.history.created && s.cancellers[c].task.state == Cancelled
  {
    hide WellShaped;
    CancellerIs(s, c);
  }

  // ----- runs -----

  lemma AttentiveWorkerStep(s: System, e: Event)
    requires WellShaped(s) && Attentive(s) && Enabled(s, e) && ByWorker(e)
    ensures Attentive(Apply(s, e))
  {
    hide *;
    UnfoldWorker(s, e);
    match e
    case Fetch(p, node, name, t, now) => AttentiveFetch(s, p, node, name, t, now);
    case Extend(p) => AttentiveExtend(s, p);
    case ExtendFails(p, applied) => AttentiveExtend(s, p); AttentiveExit(s, p); AttentiveExit(DoExtend(s, p), p);
    case Screen(p, readable) => AttentiveScreen(s, p, readable);
    case Track(p) => AttentiveTrack(s, p);
    case Recheck(p, readable) => AttentiveRecheck(s, p, readable);
    case Start(p, fault) => AttentiveStart(s, p, fault);
    case NoHandler(p) => AttentiveFail(s, p);
    case Return(p, ok, shutdown, readable) => AttentiveReturn(s, p, ok, shutdown, readable);
    case Settle(p, fault) => AttentiveSettle(s, p, fault);
    case Ack(p, lost) => AttentiveAck(s, p, lost);
    case Nack(p, clock, jitter, lost) => AttentiveNack(s, p, RetryAt(s.attempts[p].task, clock, jitter), lost);
  }

  lemma AttentiveStep(s: System, e: Event)
    requires WellShaped(s) && Attentive(s) && Enabled(s, e)
    ensures Attentive(Apply(s, e))
  {
    hide *;
    if ByWorker(e) {
      AttentiveWorkerStep(s, e);
      return;
    }
    UnfoldOther(s, e);
    match e
    case Create(t, now) => AttentiveCreate(s, t, now);
    case Enqueue(t) => AttentiveQueue(s, t, 0);
    case EnqueueDelayed(t, at) => AttentiveQueue(s, t, at);
    case Compensate(t) => AttentiveCompensate(s, t);
    case Scan(t, now, olderThan) => AttentiveScan(s, t, "", now);
    case Touch(id, now) => AttentiveScan(s, NoTask, id, now);
    case Promote(name, now, batch, ts) => AttentiveBatch(s, name, now, ts, []);
    case Reclaim(name, now, batch, ids) => AttentiveBatch(s, name, 0, [], ids);
    case Crash(node) => AttentiveCrash(s, node);
    case Deliver(node, id) => AttentiveDeliver(s, node, id);
    case CancelRead(c, id) => AttentiveCancelRead(s, c, id);
    case CancelWrite(c, fault) => CancellerIsCreated(s, c); AttentiveCancelWrite(s, c, fault);
    case CancelRemove(c, lost) => AttentiveCancelRemove(s, c, lost);
    case CancelPublish(c, lost) => AttentiveCancelPublish(s, c, lost);
    case Cleanup(gone) => AttentiveCleanup(s, gone);
  }

  lemma InitAttentive()
    ensures Attentive(Init)
  {
  }

  lemma {:induction false} AlwaysAttentive(allowed: (System, Event) -> bool, es: seq<Event>)
    requires Exec(allowed, es).Some?
    ensures Attentive(Exec(allowed, es).value)
  {
    hide Enabled, Apply, Attentive, Init;
    if es == [] {
      InitAttentive();
    } else {
      var before := es[..|es| - 1];
      AlwaysAttentive(allowed, before);
      Always(allowed, before);
      AttentiveStep(Exec(allowed, before).value, es[|es| - 1]);
    }
  }

  lemma ReachableIsAttentive(s: System)
    requires Reachable(s)
    ensures Attentive(s)
  {
    hide Exec, Attentive;
    var es :| Exec(Anything, es) == Some(s);
    AlwaysAttentive(Anything, es);
  }

  // ----- the theorems -----

  /** A registered attempt has its node's cancel-map entry if and only if no other attempt of the task has
      registered or ended on that node since it registered. */
  lemma EntryKeptIff(s: System, p: nat)
    requires Reachable(s) && p in s.attempts && s.attempts[p].tracked
    ensures HasEntry(s.cancels, p, s.attempts[p]) <==> p !in s.history.hearing.shadowed
  {
    hide Reachable, HasEntry, Attentive;
    ReachableIsAttentive(s);
    PhaseIs(s, p);
  }

  /** Hence a signal that arrives while the attempt is registered cancels its context if and only if there
      was no such overlap, or an earlier signal did. */
  lemma SignalReachesIff(s: System, p: nat)
    requires Reachable(s) && p in s.attempts && s.attempts[p].tracked
    requires Enabled(s, Deliver(s.attempts[p].node, s.attempts[p].task.id))
    ensures
      var r := Apply(s, Deliver(s.attempts[p].node, s.attempts[p].task.id));
      p in r.attempts && (r.attempts[p].cancelled <==> s.attempts[p].cancelled || p !in s.history.hearing.shadowed)
  {
    hide Reachable, DoDeliver;
    EntryKeptIff(s, p);
    DeliverIs(s, s.attempts[p].node, s.attempts[p].task.id);
  }

  /** A signal that reached the node at any time before the handler returns: its context is cancelled,
      unless the entry was lost, the second check could not be read, the cancel was overwritten or the row
      was cleaned up. */
  lemma SignalHeeded(s: System, p: nat)
    requires Reachable(s) && p in s.attempts && Started(s.attempts[p].phase)
    requires (s.attempts[p].node, s.attempts[p].task.id) in s.history.hearing.delivered
    requires InReach(s.history, p, s.attempts[p].task.id)
    ensures s.attempts[p].cancelled
  {
    hide Reachable, InReach, Attentive;
    ReachableIsAttentive(s);
    PhaseIs(s, p);
  }

  /** A second check that can be read keeps the handler from starting, for every committed cancel that
      was not overwritten and whose row is still there, with or without a signal. */
  lemma CommittedCancelSkips(s: System, p: nat)
    requires Reachable(s) && InPhase(s, p, Tracked) && s.attempts[p].task.id in s.history.cancelled
    requires s.attempts[p].task.id !in s.history.hearing.overwritten && s.attempts[p].task.id !in s.history.cleaned
    ensures DoRecheck(s, p, true).attempts[p].phase == Acking
  {
    hide Reachable, Founded, AllHear, EntriesLive;
    ReachableIsAttentive(s);
    assert StandsFor(s, s.attempts[p].task.id);
  }
}
