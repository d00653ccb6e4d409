/** What a delivery writes at its end. Between the handler's return and the outcome write nobody else touches the
    attempt, so the write is that of the result: completed exactly after a success, and after a failure one
    failure more, retrying or failed by the limit. */
module Outcomes {
  import opened Entities
  import opened TaskTable
  import opened Protocol
  import opened Shape
  import opened OptimisticLock
  import opened Finality
  import opened Selections
  import opened Interference
  import opened Worker

  /** The handler of attempt p returned, or there was none. */
  predicate Succeeded(e: Event, p: nat) {
    e.Return? && e.p == p && e.ok
  }

  predicate Failing(e: Event, p: nat) {
    (e.Return? && e.p == p && !e.ok) || e == NoHandler(p)
  }

  /** One failure more than the copy that was dequeued, and another retry if the limit allows one. */
  predicate OneFailureMore(a: Attempt) {
    && a.task.retryCount == a.copy.retryCount + 1
    && a.task.state == if a.copy.retryCount + 1 < a.copy.maxRetries then Retrying else Failed
  }

  /** A decided outcome is that of a result among the events. */
  ghost predicate Follows(es: seq<Event>, a: Attempt, p: nat) {
    a.phase == Settling ==>
      || (a.task.state == Completed && a.task.retryCount == a.copy.retryCount && exists e :: e in es && Succeeded(e, p))
      || (OneFailureMore(a) && exists e :: e in es && Failing(e, p))
  }

  /** The steps of an attempt up to its outcome write. */
  predicate Onward(e: Event) {
    e.Screen? || e.Track? || e.Recheck? || e.Start? || e.NoHandler? || e.Return?
  }

  lemma FollowsMore(es: seq<Event>, e: Event, a: Attempt, b: Attempt, p: nat)
    requires Follows(es, a, p) && b.phase == a.phase && b.task == a.task && b.copy == a.copy
    ensures Follows(es + [e], b, p)
  {
    hide Succeeded, Failing;
    forall x | x in es ensures x in es + [e] {
    }
  }

  /** Afterwards the attempt is there, on its node, and nothing is decided. */
  ghost predicate Undecided(s: System, r: System, p: nat)
    requires p in s.attempts
  {
    p in r.attempts && r.attempts[p].node == s.attempts[p].node && r.attempts[p].phase != Settling
  }

  lemma ChecksDecideNothing(s: System, p: nat, readable: bool)
    requires p in s.attempts
    ensures Undecided(s, DoScreen(s, p, readable), p) && Undecided(s, DoRecheck(s, p, readable), p)
  {
    hide SeesTerminal;
  }

  lemma StartDecidesNothing(s: System, p: nat, fault: Fault)
    requires p in s.attempts
    ensures Undecided(s, DoTrack(s, p), p) && Undecided(s, DoStart(s, p, fault), p)
  {
    hide Rivals, Write, Succeeds;
  }

  lemma FailDecides(s: System, es: seq<Event>, e: Event, p: nat)
    requires p in s.attempts && AttemptOk(s.history.created, s.attempts[p]) && Failing(e, p)
    requires s.attempts[p].phase == Cleared || s.attempts[p].phase == Handling
    ensures
      var r := DoFail(s, p);
      p in r.attempts && r.attempts[p].node == s.attempts[p].node && Follows(es + [e], r.attempts[p], p)
  {
    hide OneFailureMore, AttemptOk, FailedOnce;
    FailureIs(s.history.created, s.attempts[p]);
    assert e in es + [e];
  }

  lemma ReturnDecidesOn(s: System, es: seq<Event>, e: Event, p: nat)
    requires p in s.attempts && AttemptOk(s.history.created, s.attempts[p]) && s.attempts[p].phase == Handling
    requires e.Return? && e.p == p
    ensures
      var r := DoReturn(s, p, e.ok, e.shutdown, e.readable);
      p in r.attempts && r.attempts[p].node == s.attempts[p].node && Follows(es + [e], r.attempts[p], p)
  {
    hide OneFailureMore, DoFail;
    assert e in es + [e];
    if !e.ok {
      FailDecides(s, es, e, p);
    }
  }

  /** An own step before the outcome write. */
  lemma FollowsOwn(s: System, es: seq<Event>, e: Event, p: nat)
    requires WellShaped(s) && Enabled(s, e) && p in s.attempts && Onward(e) && e.p == p
    ensures
      var r := Apply(s, e);
      p in r.attempts && r.attempts[p].node == s.attempts[p].node && Follows(es + [e], r.attempts[p], p)
  {
    hide Enabled, Apply, WellShaped, AttemptOk, DoScreen, DoTrack, DoRecheck, DoStart, DoReturn, DoFail, OneFailureMore;
    UnfoldWorker(s, e);
    AttemptIs(s, p);
    match e
    case Screen(_, readable) => ChecksDecideNothing(s, p, readable);
    case Track(_) => StartDecidesNothing(s, p, NoFault);
    case Recheck(_, readable) => ChecksDecideNothing(s, p, readable);
    case Start(_, fault) => StartDecidesNothing(s, p, fault);
    case NoHandler(_) => FailDecides(s, es, e, p);
    case Return(_, _, _, _) => ReturnDecidesOn(s, es, e, p);
  }

  lemma FailureIs(created: map<string, Task>, a: Attempt)
    requires AttemptOk(created, a) && (a.phase == Cleared || a.phase == Handling)
    ensures OneFailureMore(a.(task := FailedOnce(a.task), phase := Settling))
  {
  }

  lemma {:induction false} ResultFollows(s: System, es: seq<Event>, r: System, p: nat, node: string)
    requires Reachable(s) && p in s.attempts && s.attempts[p].node == node && s.attempts[p].phase != Settling
    requires Run(s, es) == Some(r) && forall e | e in es && OfAttempt(e, p, node) :: Onward(e)
    ensures p in r.attempts && r.attempts[p].node == node && Follows(es, r.attempts[p], p)
  {
    hide Reachable, Enabled, Apply, WellShaped, Recorded, Onward, OfAttempt;
    if es != [] {
      var init, e := es[..|es| - 1], es[|es| - 1];
      var mid := Run(s, init).value;
      ResultFollows(s, init, mid, p, node);
      StaysReachable(s, init, mid);
      assert es == init + [e];
      if OfAttempt(e, p, node) {
        ReachableIs(mid);
        OwnerIs(e, p, node);
        FollowsOwn(mid, init, e, p);
      } else {
        ReachableEntries(mid);
        StepSparesAttempt(mid, e, p);
        FollowsMore(init, e, mid.attempts[p], r.attempts[p], p);
      }
    }
  }

  lemma OwnerIs(e: Event, p: nat, node: string)
    requires OfAttempt(e, p, node) && Onward(e)
    ensures e.p == p
  {
  }

  // ----- in the steps of processTask -----

  lemma OnlyOne<T>(pre: seq<T>, tail: seq<T>, before: seq<T>, x: T, after: seq<T>)
    requires pre + tail == before + [x] + after && x !in pre
    requires forall i | 1 <= i < |tail| :: tail[i] != x
    ensures before == pre
  {
    var all := pre + tail;
    assert all[|before|] == x;
    assert forall i | 0 <= i < |pre| :: all[i] == pre[i];
    assert forall i | |pre| <= i < |all| :: all[i] == tail[i - |pre|];
    assert before == all[..|before|] && pre == all[..|pre|];
  }

  /** What precedes the outcome write in the steps that the circumstances dictate. */
  function Prelude(env: Circumstances, p: nat): seq<Event> {
    [Screen(p, env.firstRead), Track(p), Recheck(p, env.secondRead)]
    + if env.registered then [Start(p, env.startFault), Return(p, env.succeeds, env.shutdown, env.lastRead)]
      else [NoHandler(p)]
  }

  lemma StepsBeforeSettle(t: Task, env: Circumstances, p: nat, answers: Answers, before: seq<Event>, after: seq<Event>)
    requires TaskSteps(t, env, p, answers) == before + [Settle(p, env.settleFault)] + after
    ensures before == Prelude(env, p)
  {
    var steps, x := TaskSteps(t, env, p, answers), Settle(p, env.settleFault);
    assert steps[|before|] == x;
    if env.registered {
      var tail := if env.succeeds then SuccessSteps(env, p) else FailureSteps(t, env, p, answers.wrote);
      assert !answers.first && !answers.second && (env.succeeds || !answers.stopped);
      assert steps == Prelude(env, p) + tail;
      OnlyOne(Prelude(env, p), tail, before, x, after);
    } else {
      assert !answers.first && !answers.second;
      assert steps == Prelude(env, p) + FailureSteps(t, env, p, answers.wrote);
      OnlyOne(Prelude(env, p), FailureSteps(t, env, p, answers.wrote), before, x, after);
    }
  }

  /** For every run that has the steps which the circumstances dictate: the outcome write is for a completed task
      exactly if a handler was registered and succeeded; otherwise it counts one failure more. */
  lemma SettlesAsReturned(
    s: System, es: seq<Event>, p: nat, node: string, t: Task, env: Circumstances, answers: Answers, i: nat)
    requires Reachable(s) && StandsAt(s, node, p, Loaded, t) && Run(s, es).Some?
    requires Own(es, p, node) == TaskSteps(t, env, p, answers)
    requires i < |es| && es[i] == Settle(p, env.settleFault)
    ensures Run(s, es[..i]).Some? && p in Run(s, es[..i]).value.attempts
    ensures
      var a := Run(s, es[..i]).value.attempts[p];
      && a.phase == Settling
      && (env.registered && env.succeeds ==> a.task.state == Completed && a.task.retryCount == a.copy.retryCount)
      && (!env.registered || !env.succeeds ==> OneFailureMore(a))
  {
    hide Reachable, Enabled, Apply, TaskSteps, Follows, Select, OneFailureMore;
    var before, after := es[..i], es[i + 1..];
    assert es == before + [es[i]] + after;
    var mine := AttemptSteps(p, node);
    SelectConcat(before + [es[i]], after, mine);
    SelectConcat(before, [es[i]], mine);
    SelectOne(es[i], mine);
    StepsBeforeSettle(t, env, p, answers, Own(before, p, node), Own(after, p, node));
    forall e | e in before && OfAttempt(e, p, node) ensures Onward(e) {
      SelectHas(before, mine, e);
    }
    SettleIsNext(s, before, after, p, env.settleFault);
    ResultFollows(s, before, Run(s, before).value, p, node);
    FollowsWhich(before, Run(s, before).value.attempts[p], p, node, env);
  }

  lemma SettleIsNext(s: System, before: seq<Event>, after: seq<Event>, p: nat, fault: Fault)
    requires Run(s, before + [Settle(p, fault)] + after).Some?
    ensures Run(s, before).Some? && InPhase(Run(s, before).value, p, Settling)
  {
    hide Apply;
    RunPrefix(s, before + [Settle(p, fault)], after);
    assert (before + [Settle(p, fault)])[..|before|] == before;
  }

  lemma {:induction false} RunPrefix(s: System, es: seq<Event>, fs: seq<Event>)
    requires Run(s, es + fs).Some?
    ensures Run(s, es).Some?
  {
    hide Enabled, Apply;
    if fs == [] {
      assert es + fs == es;
    } else {
      assert (es + fs)[..|es + fs| - 1] == es + fs[..|fs| - 1];
      RunPrefix(s, es, fs[..|fs| - 1]);
    }
  }

  lemma FollowsWhich(es: seq<Event>, a: Attempt, p: nat, node: string, env: Circumstances)
    requires Follows(es, a, p) && a.phase == Settling && Own(es, p, node) == Prelude(env, p)
    ensures env.registered && env.succeeds ==> a.task.state == Completed && a.task.retryCount == a.copy.retryCount
    ensures !env.registered || !env.succeeds ==> OneFailureMore(a)
  {
    hide Select, OneFailureMore, Run;
    forall e | e in es && (Succeeded(e, p) || Failing(e, p)) ensures e in Prelude(env, p) {
      SelectHas(es, AttemptSteps(p, node), e);
    }
  }
}
