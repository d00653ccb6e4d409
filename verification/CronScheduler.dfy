/** The cron job table and one pass of a scheduler over the due jobs, shown to be a run of the cluster. */
module CronScheduler {
  import opened Entities
  import opened SortedSets
  import opened TaskTable
  import opened Selections
  import opened Cron
  import opened CronPolicy

  /** The next runs of the enabled jobs that have one. */
  function NextRuns(jobs: map<string, CronJob>): map<string, int> {
    map id | id in jobs && jobs[id].enabled && jobs[id].nextRunAt.Some? :: jobs[id].nextRunAt.value
  }

  class CronJobRepository {
    var jobs: map<string, CronJob>

    constructor ()
      ensures jobs == map[]
    {
      jobs := map[];
    }

    /** One UPDATE with next_run_at in its WHERE clause. */
    method ClaimCronJob(id: string, expected: int, now: int, next: int, fault: Fault)
      returns (claimed: bool, failed: bool)
      modifies this
      ensures jobs == if ClaimHolds(old(jobs), id, expected) && !fault.LostBefore?
                      then Claimed(old(jobs), id, now, next) else old(jobs)
      ensures claimed <==> ClaimHolds(old(jobs), id, expected) && fault.NoFault?
      ensures claimed ==>
                && id in jobs && id in old(jobs) && old(jobs)[id].nextRunAt == Some(expected)
                && jobs == old(jobs)[id := old(jobs)[id].(lastRunAt := Some(now), nextRunAt := Some(next))]
      ensures failed <==> !fault.NoFault?
    {
      var affected := 0;
      if !fault.LostBefore? && id in jobs && jobs[id].nextRunAt == Some(expected) {
        jobs := jobs[id := jobs[id].(lastRunAt := Some(now), nextRunAt := Some(next))];
        affected := 1;
      }
      failed := !fault.NoFault?;
      claimed := !failed && affected == 1;
    }

    /** The due jobs, earliest next run first, at most `limit` of them. */
    method FindDueCronJobs(now: int, limit: int) returns (due: seq<CronJob>)
      requires forall id | id in jobs :: jobs[id].id == id
      ensures IsRange(NextRuns(jobs), now, limit, JobIds(due))
      ensures forall job | job in due :: job.id in jobs && job == jobs[job.id] && job.DueAt(now)
      ensures forall id | id in jobs && LeftOut(jobs[id], now, JobIds(due)) :: |due| == limit
    {
      var found := RangeByScore(NextRuns(jobs), now, limit);
      due := [];
      for i := 0 to |found|
        invariant |due| == i
        invariant forall k | 0 <= k < i :: due[k].id == found[k]
        invariant forall job | job in due :: job.id in jobs && job == jobs[job.id] && job.DueAt(now)
      {
        due := due + [jobs[found[i]]];
      }
      assert JobIds(due) == found;
      forall id | id in jobs && LeftOut(jobs[id], now, JobIds(due)) ensures |due| == limit {
        LeftOutMeansFull(jobs, now, limit, due, id);
      }
    }
  }

  /** An enabled job whose next run is due is not in the batch. */
  predicate LeftOut(job: CronJob, now: int, batch: seq<string>) {
    job.enabled && job.nextRunAt.Some? && job.nextRunAt.value <= now && job.id !in batch
  }

  lemma LeftOutMeansFull(jobs: map<string, CronJob>, now: int, limit: int, due: seq<CronJob>, id: string)
    requires id in jobs && jobs[id].id == id && LeftOut(jobs[id], now, JobIds(due))
    requires IsRange(NextRuns(jobs), now, limit, JobIds(due))
    ensures |due| == limit
  {
    LeftOutIsLater(NextRuns(jobs), now, limit, JobIds(due), id);
  }

  function JobIds(due: seq<CronJob>): seq<string> {
    seq(|due|, i requires 0 <= i < |due| => due[i].id)
  }

  /** What the environment answers while one job is handled. */
  datatype Moment = Moment(
    now: int,
    next: Option<int>,        // None: the cron expression does not parse
    running: Option<bool>,    // None: the check failed
    fault: Fault,
    createOk: bool,
    enqueueOk: bool)

  predicate Fits(m: Moment, scannedAt: int) {
    m.now >= scannedAt && (m.next.Some? ==> m.next.value > m.now)
  }

  // ----- the steps that the environment's answers dictate -----

  /** The steps for one job: nothing after the check if the expression does not parse or the policy check failed;
      a claim otherwise, and the creation for the winner of a claim that is not a skip. */
  function JobSteps(job: CronJob, m: Moment, v: nat, won: bool): seq<Step> {
    [Check(v, m.now, m.next, m.running)]
    + if m.next.None? || !(Admits(job, m.running) || Suppresses(job, m.running)) then []
      else [TryClaim(v, m.fault)] + if Admits(job, m.running) && won then [Create(v, m.createOk)] else []
  }

  predicate Runs(job: CronJob, m: Moment) {
    m.next.Some? && Admits(job, m.running)
  }

  /** The stretch contains the visit's claim, and `won` says whether it was won at that moment: the job still had
      the next run that was scanned, and the call had no fault. */
  ghost predicate ClaimsAt(s: Cluster, es: seq<Step>, v: nat, m: Moment, job: CronJob, won: bool) {
    exists mid, fs, gs ::
      && Exec(s, fs) == Some(mid) && es == fs + [TryClaim(v, m.fault)] + gs
      && (won <==> job.nextRunAt.Some? && ClaimHolds(mid.jobs, job.id, job.nextRunAt.value) && m.fault.NoFault?)
  }

  function VisitSteps(v: nat): Step -> bool {
    e => OfVisit(e, v)
  }

  /** The steps on visit v. */
  function OwnVisit(es: seq<Step>, v: nat): seq<Step> {
    Select(es, VisitSteps(v))
  }

  lemma OwnMore(es: seq<Step>, e: Step, v: nat)
    ensures OwnVisit(es + [e], v) == OwnVisit(es, v) + if OfVisit(e, v) then [e] else []
  {
    assert (es + [e])[..|es|] == es;
  }

  lemma ClaimsLonger(s: Cluster, es: seq<Step>, gs: seq<Step>, v: nat, m: Moment, job: CronJob, won: bool)
    requires ClaimsAt(s, es, v, m, job, won)
    ensures ClaimsAt(s, es + gs, v, m, job, won)
  {
    hide Exec, ClaimHolds;
    var mid, fs, hs :| Exec(s, fs) == Some(mid) && es == fs + [TryClaim(v, m.fault)] + hs
                       && (won <==>
                             job.nextRunAt.Some? && ClaimHolds(mid.jobs, job.id,
                                 job.nextRunAt.value) && m.fault.NoFault?);
    assert es + gs == fs + [TryClaim(v, m.fault)] + (hs + gs);
  }

  lemma ClaimsEarlier(
    start: Cluster, before: seq<Step>, s: Cluster, es: seq<Step>, v: nat, m: Moment, job: CronJob, won: bool)
    requires Exec(start, before) == Some(s) && ClaimsAt(s, es, v, m, job, won)
    ensures ClaimsAt(start, before + es, v, m, job, won)
  {
    hide Exec, ClaimHolds;
    var mid, fs, gs :| Exec(s, fs) == Some(mid) && es == fs + [TryClaim(v, m.fault)] + gs
                       && (won <==>
                             job.nextRunAt.Some? && ClaimHolds(mid.jobs, job.id,
                                 job.nextRunAt.value) && m.fault.NoFault?);
    ExecConcat(start, before, fs);
    assert before + es == (before + fs) + [TryClaim(v, m.fault)] + gs;
  }

  // ----- what others leave alone -----

  /** A step on visit v. */
  predicate OfVisit(e: Step, v: nat) {
    match e
    case Scan(w, _, _) => w == v
    case Check(w, _, _, _) => w == v
    case TryClaim(w, _) => w == v
    case Create(w, _) => w == v
    case Stop(w) => w == v
    case _ => false
  }

  predicate SameVisit(s: Cluster, r: Cluster, v: nat) {
    (v in s.visits <==> v in r.visits) && (v in s.visits ==> r.visits[v] == s.visits[v])
  }

  lemma StepKeepsVisit(s: Cluster, e: Step, v: nat)
    requires Enabled(s, e) && !OfVisit(e, v)
    ensures SameVisit(s, Apply(s, e), v)
  {
  }

  /** Nobody else moves a scheduler's visit. */
  lemma {:induction false} OthersKeepVisit(s: Cluster, es: seq<Step>, r: Cluster, v: nat)
    requires Exec(s, es) == Some(r) && forall e | e in es :: !OfVisit(e, v)
    ensures SameVisit(s, r, v)
  {
    hide Enabled, Apply, OfVisit;
    if es != [] {
      var init := es[..|es| - 1];
      var mid := Exec(s, init).value;
      OthersKeepVisit(s, init, mid, v);
      StepKeepsVisit(mid, es[|es| - 1], v);
    }
  }

  /** Everybody else: any stretch of a run of the cluster without steps on the given visits. Nothing here
      says what they do, so callers are right whatever it is. */
  method Others(repo: CronJobRepository, ghost own: set<nat>, ghost s: Cluster)
    returns (ghost es: seq<Step>, ghost r: Cluster)
    requires s.jobs == repo.jobs
    modifies repo
    ensures Exec(s, es) == Some(r) && r.jobs == repo.jobs
    ensures forall e, v | e in es && v in own :: !OfVisit(e, v)
  {
    es, r := [], s;
  }

  /** Between two calls of a scheduler. */
  method Between(repo: CronJobRepository, ghost own: set<nat>, ghost s: Cluster)
    returns (ghost es: seq<Step>, ghost r: Cluster)
    requires s.jobs == repo.jobs
    modifies repo
    ensures Exec(s, es) == Some(r) && r.jobs == repo.jobs
    ensures forall e, v | e in es && v in own :: !OfVisit(e, v)
    ensures forall v | v in own :: SameVisit(s, r, v) && OwnVisit(es, v) == []
  {
    es, r := Others(repo, own, s);
    forall v | v in own ensures SameVisit(s, r, v) && OwnVisit(es, v) == [] {
      OthersKeepVisit(s, es, r, v);
      SelectNone(es, VisitSteps(v));
    }
  }

  // ----- one job -----

  /** Own step on visit v at the end of a stretch. */
  lemma Next(s: Cluster, es: seq<Step>, mid: Cluster, e: Step, v: nat) returns (fs: seq<Step>, r: Cluster)
    requires Exec(s, es) == Some(mid) && Enabled(mid, e) && (e.Check? || e.TryClaim? || e.Create?) && e.v == v
    ensures fs == es + [e] && Exec(s, fs) == Some(r) && r == Apply(mid, e) && forall w | w != v :: SameVisit(mid, r, w)
    ensures OwnVisit(fs, v) == OwnVisit(es, v) + [e]
  {
    OwnMore(es, e, v);
    ExecAppend(s, es, e);
    fs, r := es + [e], Apply(mid, e);
    forall w | w != v ensures SameVisit(mid, r, w) {
      StepKeepsVisit(mid, e, w);
    }
  }

  /** The scheduler's claim on visit v, as the table sees it. */
  lemma ClaimIs(s: Cluster, v: nat, fault: Fault)
    requires v in s.visits && s.visits[v].job.nextRunAt.Some?
    requires (s.visits[v].phase.Skipping? || s.visits[v].phase.Claiming?)
    ensures
      var visit, r := s.visits[v], Apply(s, TryClaim(v, fault));
      var id, at := visit.job.id, visit.Occurrence();
      && Enabled(s, TryClaim(v, fault))
      && r.jobs == (if ClaimHolds(s.jobs, id, at) && !fault.LostBefore?
                    then Claimed(s.jobs, id, visit.phase.now, visit.phase.next) else s.jobs)
      && (if ClaimHolds(s.jobs, id, at) && fault.NoFault? && visit.phase.Claiming?
          then v in r.visits && r.visits[v] == visit.(phase := Won) else v !in r.visits)
  {
  }

  /** The handling of one job that TriggerDueCronJobs takes out of its batch, others at work in between. */
  method TriggerOne(
    repo: CronJobRepository, job: CronJob, m: Moment, ghost v: nat, ghost own: set<nat>, ghost s: Cluster)
    returns (triggered: bool, ghost es: seq<Step>, ghost r: Cluster, ghost won: bool)
    requires s.jobs == repo.jobs && v in own && v in s.visits && s.visits[v].job == job && s.visits[v].phase == Scanned
    requires job.nextRunAt.Some? && Fits(m, s.visits[v].scannedAt)
    modifies repo
    ensures Exec(s, es) == Some(r) && r.jobs == repo.jobs && v !in r.visits
    ensures forall w | w in own && w != v :: SameVisit(s, r, w)
    ensures forall e, w | e in es && w in own && OfVisit(e, w) :: w == v
    ensures triggered <==> m.enqueueOk && Create(v, true) in es
    ensures OwnVisit(es, v) == JobSteps(job, m, v, won)
    ensures Runs(job, m) ==> ClaimsAt(s, es, v, m, job, won)
    ensures triggered <==> Runs(job, m) && won && m.createOk && m.enqueueOk
  {
    hide Exec, Select, ClaimsAt;
    ExecEmpty(s);
    CheckDecides(s, v, m.now, m.next, m.running);
    ghost var fs, mid := Next(s, [], s, Check(v, m.now, m.next, m.running), v);
    SelectNone([], VisitSteps(v));
    es, r := fs, mid;
    triggered, won := false, false;
    if m.next.None? {
      return;
    }
    if job.policy == Forbid {
      if m.running.None? {
        return;
      }
      if m.running.value {
        es, r := SkipClaim(repo, job, m, v, own, s, es, r);
        return;
      }
    }
    triggered, es, r, won := ClaimAndCreate(repo, job, m, v, own, s, es, r);
  }

  /** A Forbid skip: the next run moves on, the result is not looked at. */
  method SkipClaim(
    repo: CronJobRepository, job: CronJob, m: Moment, ghost v: nat, ghost own: set<nat>, ghost s: Cluster,
    ghost es: seq<Step>, ghost now: Cluster)
    returns (ghost fs: seq<Step>, ghost r: Cluster)
    requires Exec(s, es) == Some(now) && now.jobs == repo.jobs
    requires v in own && v in now.visits && now.visits[v].job == job
    requires m.next.Some? && now.visits[v].phase == Skipping(m.now, m.next.value) && job.nextRunAt.Some?
    requires forall e, w | e in es && w in own && OfVisit(e, w) :: w == v
    requires Create(v, true) !in es && forall w | w in own && w != v :: SameVisit(s, now, w)
    modifies repo
    ensures Exec(s, fs) == Some(r) && r.jobs == repo.jobs && v !in r.visits && Create(v, true) !in fs
    ensures OwnVisit(fs, v) == OwnVisit(es, v) + [TryClaim(v, m.fault)]
    ensures forall w | w in own && w != v :: SameVisit(s, r, w)
    ensures forall e, w | e in fs && w in own && OfVisit(e, w) :: w == v
  {
    hide Exec, Select;
    ghost var gs, mid := Between(repo, own, now);
    ExecConcat(s, es, gs);
    SelectConcat(es, gs, VisitSteps(v));
    fs := es + gs;
    ClaimIs(mid, v, m.fault);
    var claimed, failed := repo.ClaimCronJob(job.id, job.nextRunAt.value, m.now, m.next.value, m.fault);
    fs, r := Next(s, fs, mid, TryClaim(v, m.fault), v);
  }

  /** The claim comes first; only its winner creates and enqueues the task. */
  method ClaimAndCreate(
    repo: CronJobRepository, job: CronJob, m: Moment, ghost v: nat, ghost own: set<nat>, ghost s: Cluster,
    ghost es: seq<Step>, ghost now: Cluster)
    returns (triggered: bool, ghost fs: seq<Step>, ghost r: Cluster, ghost won: bool)
    requires Exec(s, es) == Some(now) && now.jobs == repo.jobs
    requires v in own && v in now.visits && now.visits[v].job == job
    requires m.next.Some? && now.visits[v].phase == Claiming(m.now, m.next.value) && job.nextRunAt.Some?
    requires forall e, w | e in es && w in own && OfVisit(e, w) :: w == v
    requires Create(v, true) !in es && forall w | w in own && w != v :: SameVisit(s, now, w)
    modifies repo
    ensures Exec(s, fs) == Some(r) && r.jobs == repo.jobs && v !in r.visits
    ensures triggered <==> m.enqueueOk && Create(v, true) in fs
    ensures triggered <==> won && m.createOk && m.enqueueOk
    ensures OwnVisit(fs, v) == OwnVisit(es, v) + [TryClaim(v, m.fault)] + if won then [Create(v, m.createOk)] else []
    ensures ClaimsAt(s, fs, v, m, job, won)
    ensures forall w | w in own && w != v :: SameVisit(s, r, w)
    ensures forall e, w | e in fs && w in own && OfVisit(e, w) :: w == v
  {
    hide Exec, Select, ClaimHolds, ClaimsAt;
    ghost var gs, mid := Between(repo, own, now);
    ExecConcat(s, es, gs);
    SelectConcat(es, gs, VisitSteps(v));
    fs := es + gs;
    ClaimIs(mid, v, m.fault);
    triggered, won := false, ClaimHolds(mid.jobs, job.id, job.nextRunAt.value) && m.fault.NoFault?;
    ClaimsNow(s, fs, mid, v, m, job, won);
    var claimed, failed := repo.ClaimCronJob(job.id, job.nextRunAt.value, m.now, m.next.value, m.fault);
    fs, r := Next(s, fs, mid, TryClaim(v, m.fault), v);
    if failed || !claimed {
      return;
    }
    gs, mid := Between(repo, own, r);
    ExecConcat(s, fs, gs);
    SelectConcat(fs, gs, VisitSteps(v));
    ClaimsLonger(s, fs, gs, v, m, job, won);
    fs := fs + gs;
    ClaimsLonger(s, fs, [Create(v, m.createOk)], v, m, job, won);
    fs, r := Next(s, fs, mid, Create(v, m.createOk), v);
    triggered := m.createOk && m.enqueueOk;
  }

  lemma ClaimsNow(s: Cluster, es: seq<Step>, mid: Cluster, v: nat, m: Moment, job: CronJob, won: bool)
    requires Exec(s, es) == Some(mid) && job.nextRunAt.Some?
    requires won <==> ClaimHolds(mid.jobs, job.id, job.nextRunAt.value) && m.fault.NoFault?
    ensures ClaimsAt(s, es + [TryClaim(v, m.fault)], v, m, job, won)
  {
    hide Exec, ClaimHolds;
    assert es + [TryClaim(v, m.fault)] == es + [TryClaim(v, m.fault)] + [];
  }

  lemma ExecEmpty(s: Cluster)
    ensures Exec(s, []) == Some(s)
  {
  }

  // ----- one pass -----

  /** The visits among vs for which a task was created. */
  function Fired(es: seq<Step>, vs: seq<nat>): set<nat> {
    set v | v in vs && Create(v, true) in es
  }

  /** From position `from` on, each job is on its visit, just scanned. */
  ghost predicate Visiting(s: Cluster, due: seq<CronJob>, vs: seq<nat>, from: nat, now: int)
    requires |due| == |vs|
  {
    forall i | from <= i < |due| :: vs[i] in s.visits && s.visits[vs[i]] == Visit(due[i], now, Scanned)
  }

  /** The jobs of one query are read at once. */
  lemma {:induction false} ScanAll(start: Cluster, due: seq<CronJob>, vs: seq<nat>, now: int)
    returns (es: seq<Step>, s: Cluster)
    requires |due| == |vs| && Distinct(vs) && forall v | v in vs :: v !in start.visits
    requires forall job | job in due :: job.id in start.jobs && job == start.jobs[job.id] && job.DueAt(now)
    ensures Exec(start, es) == Some(s) && s.jobs == start.jobs && Visiting(s, due, vs, 0, now)
    ensures (forall v | v in s.visits :: v in start.visits || v in vs) && forall e | e in es :: e.Scan?
    ensures forall i | 0 <= i < |due| :: OwnVisit(es, vs[i]) == [Scan(vs[i], due[i].id, now)]
    ensures forall v | v !in vs :: OwnVisit(es, v) == []
  {
    hide Select;
    if due == [] {
      es, s := [], start;
      forall v ensures OwnVisit(es, v) == [] {
        SelectNone(es, VisitSteps(v));
      }
    } else {
      var last := |due| - 1;
      var e := Scan(vs[last], due[last].id, now);
      es, s := ScanAll(start, due[..last], vs[..last], now);
      assert vs[last] !in vs[..last];
      ExecAppend(start, es, e);
      var r := Apply(s, e);
      forall i | 0 <= i < |due| ensures vs[i] in r.visits && r.visits[vs[i]] == Visit(due[i], now, Scanned) {
        if i < last {
          assert vs[..last][i] == vs[i] && due[..last][i] == due[i];
        }
      }
      forall v ensures OwnVisit(es + [e], v) == OwnVisit(es, v) + if v == vs[last] then [e] else [] {
        OwnMore(es, e, v);
      }
      forall i | 0 <= i < |due| ensures OwnVisit(es + [e], vs[i]) == [Scan(vs[i], due[i].id, now)] {
        if i < last {
          assert vs[..last][i] == vs[i] && due[..last][i] == due[i] && vs[i] != vs[last];
        }
      }
      es, s := es + [e], r;
    }
  }

  /** One job more: only its own visit can have fired since. */
  lemma FiredMore(es: seq<Step>, steps: seq<Step>, vs: seq<nat>, i: nat)
    requires i < |vs| && Distinct(vs) && forall e, w | e in steps && w in vs && OfVisit(e, w) :: w == vs[i]
    requires forall k | i <= k < |vs| :: Create(vs[k], true) !in es
    ensures |Fired(es + steps, vs[..i + 1])| == |Fired(es, vs[..i])| + if Create(vs[i], true) in steps then 1 else 0
    ensures forall k | i + 1 <= k < |vs| :: Create(vs[k], true) !in es + steps
  {
    forall v | v in vs && v != vs[i] ensures Create(v, true) !in steps {
      assert OfVisit(Create(v, true), v);
    }
    assert vs[..i + 1] == vs[..i] + [vs[i]];
    var before, after := Fired(es, vs[..i]), Fired(es + steps, vs[..i + 1]);
    FiredIs(es, steps, vs, i);
    if Create(vs[i], true) in steps {
      assert after == before + {vs[i]};
    } else {
      assert after == before;
    }
  }

  lemma FiredIs(es: seq<Step>, steps: seq<Step>, vs: seq<nat>, i: nat)
    requires i < |vs| && Distinct(vs) && Create(vs[i], true) !in es
    requires forall v | v in vs && v != vs[i] :: Create(v, true) !in steps
    ensures vs[i] !in Fired(es, vs[..i])
    ensures forall v ::
              v in Fired(es + steps, vs[..i + 1])
              <==> v in Fired(es, vs[..i]) || (v == vs[i] && Create(v, true) in steps)
  {
    assert forall v | v in vs[..i] :: v in vs && v != vs[i];
    assert vs[..i + 1] == vs[..i] + [vs[i]];
  }

  lemma StillVisiting(s: Cluster, r: Cluster, due: seq<CronJob>, vs: seq<nat>, from: nat, now: int)
    requires |due| == |vs| && Distinct(vs) && Visiting(s, due, vs, from, now) && from < |due|
    requires forall w | w in vs && w != vs[from] :: SameVisit(s, r, w)
    ensures Visiting(r, due, vs, from + 1, now)
  {
    forall i | from + 1 <= i < |due| ensures vs[i] in r.visits && r.visits[vs[i]] == Visit(due[i], now, Scanned) {
      assert vs[i] in vs && vs[i] != vs[from] && SameVisit(s, r, vs[i]);
    }
  }

  /** All steps on visit v: the scan, and those that the answers dictate. */
  ghost predicate HandledAs(start: Cluster, es: seq<Step>, v: nat, clock: int, job: CronJob, m: Moment, won: bool) {
    && OwnVisit(es, v) == [Scan(v, job.id, clock)] + JobSteps(job, m, v, won)
    && (Runs(job, m) ==> ClaimsAt(start, es, v, m, job, won))
  }

  /** The jobs that got a task which was enqueued: they ran, their claim was won, and both calls succeeded. */
  function Started(due: seq<CronJob>, env: seq<Moment>, wons: seq<bool>): nat
    requires |due| == |wons| <= |env|
  {
    if due == [] then 0
    else
      var last := |due| - 1;
      Started(due[..last], env, wons[..last])
      + if Runs(due[last], env[last]) && wons[last] && env[last].createOk && env[last].enqueueOk then 1 else 0
  }

  lemma StillHandled(
    start: Cluster, es: seq<Step>, steps: seq<Step>, v: nat, clock: int, job: CronJob, m: Moment, won: bool)
    requires HandledAs(start, es, v, clock, job, m, won) && OwnVisit(steps, v) == []
    ensures HandledAs(start, es + steps, v, clock, job, m, won)
  {
    hide Select, ClaimsAt;
    SelectConcat(es, steps, VisitSteps(v));
    if Runs(job, m) {
      ClaimsLonger(start, es, steps, v, m, job, won);
    }
  }

  lemma NowHandled(
    start: Cluster, es: seq<Step>, s: Cluster, steps: seq<Step>, v: nat, clock: int, job: CronJob, m: Moment, won: bool)
    requires Exec(start, es) == Some(s) && OwnVisit(es, v) == [Scan(v, job.id, clock)]
    requires OwnVisit(steps, v) == JobSteps(job, m, v, won) && (Runs(job, m) ==> ClaimsAt(s, steps, v, m, job, won))
    ensures HandledAs(start, es + steps, v, clock, job, m, won)
  {
    hide Select, ClaimsAt, JobSteps;
    SelectConcat(es, steps, VisitSteps(v));
    if Runs(job, m) {
      ClaimsEarlier(start, es, s, steps, v, m, job, won);
    }
  }

  /** What one job more changes for all the jobs of the batch. */
  lemma HandledMore(
    start: Cluster, es: seq<Step>, s: Cluster, steps: seq<Step>, vs: seq<nat>, clock: int, due: seq<CronJob>,
    env: seq<Moment>, wons: seq<bool>, won: bool)
    requires |wons| < |due| == |vs| <= |env| && Distinct(vs) && Exec(start, es) == Some(s)
    requires forall e, w | e in steps && w in vs && OfVisit(e, w) :: w == vs[|wons|]
    requires forall k | 0 <= k < |wons| :: HandledAs(start, es, vs[k], clock, due[k], env[k], wons[k])
    requires forall k | |wons| <= k < |due| :: OwnVisit(es, vs[k]) == [Scan(vs[k], due[k].id, clock)]
    requires
      var i := |wons|;
      && OwnVisit(steps, vs[i]) == JobSteps(due[i], env[i], vs[i], won)
      && (Runs(due[i], env[i]) ==> ClaimsAt(s, steps, vs[i], env[i], due[i], won))
    ensures forall k | 0 <= k <= |wons| :: HandledAs(start, es + steps, vs[k], clock, due[k], env[k], (wons + [won])[k])
    ensures forall k | |wons| < k < |due| :: OwnVisit(es + steps, vs[k]) == [Scan(vs[k], due[k].id, clock)]
    ensures Started(due[..|wons| + 1], env, wons + [won])
            == Started(due[..|wons|], env, wons)
               + if Runs(due[|wons|], env[|wons|]) && won && env[|wons|].createOk && env[|wons|].enqueueOk then 1 else 0
  {
    hide HandledAs, Select, ClaimsAt, JobSteps, OfVisit, Exec, Runs;
    var i := |wons|;
    NowHandled(start, es, s, steps, vs[i], clock, due[i], env[i], won);
    forall k | 0 <= k < |vs| && k != i ensures OwnVisit(steps, vs[k]) == [] {
      assert vs[k] in vs;
      SelectNone(steps, VisitSteps(vs[k]));
    }
    forall k | 0 <= k < i ensures HandledAs(start, es + steps, vs[k], clock, due[k], env[k], (wons + [won])[k]) {
      StillHandled(start, es, steps, vs[k], clock, due[k], env[k], wons[k]);
    }
    forall k | i < k < |due| ensures OwnVisit(es + steps, vs[k]) == [Scan(vs[k], due[k].id, clock)] {
      SelectConcat(es, steps, VisitSteps(vs[k]));
    }
    assert due[..i + 1][..i] == due[..i] && (wons + [won])[..i] == wons;
  }

  /** One pass, beside any number of other schedulers: it is a run of the cluster, and it counts the jobs
      for which it created a task, less those whose enqueue failed. Each job of the batch gets exactly the steps
      that its answers dictate. `unused` are visit numbers to use. */
  method TriggerDueCronJobs(
    repo: CronJobRepository, limit: int, scanClock: int, env: seq<Moment>, ghost unused: seq<nat>, ghost start: Cluster)
    returns (
      triggered: nat, ghost due: seq<CronJob>, ghost vs: seq<nat>, ghost wons: seq<bool>, ghost es: seq<Step>,
      ghost r: Cluster)
    requires start.jobs == repo.jobs && forall id | id in repo.jobs :: repo.jobs[id].id == id
    requires Distinct(unused) && |unused| >= |repo.jobs| && forall v | v in unused :: v !in start.visits
    requires |env| >= |repo.jobs| && forall m | m in env :: Fits(m, scanClock)
    modifies repo
    ensures Exec(start, es) == Some(r) && r.jobs == repo.jobs
    ensures IsRange(NextRuns(old(repo.jobs)), scanClock, limit, JobIds(due))
    ensures |vs| == |due| && forall v | v in vs :: v !in r.visits
    ensures triggered <= |Fired(es, vs)|
    ensures (forall m | m in env :: m.enqueueOk) ==> triggered == |Fired(es, vs)|
    ensures |wons| == |due| <= |env| && triggered == Started(due, env, wons)
    ensures forall i | 0 <= i < |due| :: HandledAs(start, es, vs[i], scanClock, due[i], env[i], wons[i])
  {
    hide Exec, IsRange, NextRuns, JobIds, Fired, Visiting, HandledAs, Select, ClaimsAt, JobSteps, OfVisit, Runs;
    var found := repo.FindDueCronJobs(scanClock, limit);
    BatchFits(repo.jobs, scanClock, limit, found);
    due, vs, triggered := found, unused[..|found|], 0;
    es, r := ScanAll(start, found, vs, scanClock);
    wons := [];
    FiredNone(es);
    for i := 0 to |found|
      invariant Exec(start, es) == Some(r) && r.jobs == repo.jobs && due == found && |vs| == |found| && Distinct(vs)
      invariant Visiting(r, found, vs, i, scanClock)
      invariant forall k | 0 <= k < i :: vs[k] !in r.visits
      invariant forall k | i <= k < |found| :: Create(vs[k], true) !in es
      invariant |wons| == i && triggered == Started(found[..i], env, wons)
      invariant forall k | 0 <= k < i :: HandledAs(start, es, vs[k], scanClock, found[k], env[k], wons[k])
      invariant forall k | i <= k < |found| :: OwnVisit(es, vs[k]) == [Scan(vs[k], found[k].id, scanClock)]
      invariant triggered <= |Fired(es, vs[..i])|
      invariant (forall m | m in env :: m.enqueueOk) ==> triggered == |Fired(es, vs[..i])|
    {
      VisitOf(r, found, vs, i, scanClock);
      var one;
      ghost var steps, after, won;
      one, steps, after, won := TriggerOne(repo, found[i], env[i], vs[i], Elements(vs), r);
      ExecConcat(start, es, steps);
      OwnSteps(steps, r, after, vs, i);
      FiredMore(es, steps, vs, i);
      HandledMore(start, es, r, steps, vs, scanClock, found, env, wons, won);
      wons := wons + [won];
      StillVisiting(r, after, found, vs, i, scanClock);
      forall k | 0 <= k < i ensures vs[k] !in after.visits {
        assert vs[k] in vs && vs[k] != vs[i] && SameVisit(r, after, vs[k]);
      }
      if one {
        triggered := triggered + 1;
      }
      es, r := es + steps, after;
    }
    assert vs[..|found|] == vs && found[..|found|] == found;
  }

  lemma OwnSteps(steps: seq<Step>, s: Cluster, r: Cluster, vs: seq<nat>, i: nat)
    requires i < |vs|
    requires forall w | w in Elements(vs) && w != vs[i] :: SameVisit(s, r, w)
    requires forall e, w | e in steps && w in Elements(vs) && OfVisit(e, w) :: w == vs[i]
    ensures forall w | w in vs && w != vs[i] :: SameVisit(s, r, w)
    ensures forall e, w | e in steps && w in vs && OfVisit(e, w) :: w == vs[i]
  {
    assert forall w | w in vs :: w in Elements(vs);
  }

  lemma FiredNone(es: seq<Step>)
    ensures Fired(es, []) == {}
  {
  }

  lemma VisitOf(s: Cluster, due: seq<CronJob>, vs: seq<nat>, i: nat, now: int)
    requires |due| == |vs| && Visiting(s, due, vs, i, now) && i < |due|
    ensures vs[i] in s.visits && s.visits[vs[i]] == Visit(due[i], now, Scanned) && vs[i] in Elements(vs)
  {
  }

  lemma BatchFits(jobs: map<string, CronJob>, now: int, limit: int, due: seq<CronJob>)
    requires IsRange(NextRuns(jobs), now, limit, JobIds(due))
    ensures |due| <= |jobs|
  {
    DistinctSize(JobIds(due));
    assert Elements(JobIds(due)) <= jobs.Keys;
    SubsetSize(Elements(JobIds(due)), jobs.Keys);
  }

  lemma SubsetSize(a: set<string>, b: set<string>)
    requires a <= b
    ensures |a| <= |b|
  {
    assert b == a + (b - a);
  }
}
