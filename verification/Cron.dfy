/** Cron triggering by any number of schedulers at once. Each scheduler works on a snapshot of the due
    jobs, with its own clock; the claim is a compare-and-set on next_run_at. The only facts used about
    time are that a cron expression's next run lies after the given time and that one scheduler's clock
    does not go back between its scan and its claim. */
module Cron {
  import opened Entities
  import opened TaskTable

  datatype Policy = Allow | Forbid

  datatype CronJob = CronJob(
    id: string,
    expr: string,
    policy: Policy,
    enabled: bool,
    lastRunAt: Option<int>,
    nextRunAt: Option<int>)
  {
    predicate DueAt(now: int) {
      enabled && nextRunAt.Some? && nextRunAt.value <= now
    }
  }

  // ----- the claim -----

  predicate ClaimHolds(jobs: map<string, CronJob>, id: string, expected: int) {
    id in jobs && jobs[id].nextRunAt == Some(expected)
  }

  function Claimed(jobs: map<string, CronJob>, id: string, now: int, next: int): map<string, CronJob>
    requires id in jobs
  {
    jobs[id := jobs[id].(lastRunAt := Some(now), nextRunAt := Some(next))]
  }

  // ----- schedulers -----

  /** One due job in the hands of one scheduler. `now` is the clock read before the policy check and
      `next` the run computed from it. */
  datatype Phase =
    | Scanned
    | Skipping(now: int, next: int)
    | Claiming(now: int, next: int)
    | Won

  datatype Visit = Visit(job: CronJob, scannedAt: int, phase: Phase)
  {
    /** The occurrence that this visit is about. */
    function Occurrence(): int
      requires job.nextRunAt.Some?
    {
      job.nextRunAt.value
    }
  }

  datatype Entry =
    | Claim(id: string, at: int, skipped: bool)
    | Trigger(id: string, at: int)

  /** `known` holds the ids ever used; `log` what was committed, in order. */
  datatype Cluster = Cluster(
    jobs: map<string, CronJob>,
    known: set<string>,
    visits: map<nat, Visit>,
    log: seq<Entry>)

  datatype Step =
    | Add(job: CronJob)
    | Delete(id: string)
    | Scan(v: nat, id: string, now: int)
    | Check(v: nat, now: int, next: Option<int>, running: Option<bool>)
    | TryClaim(v: nat, fault: Fault)
    | Create(v: nat, created: bool)
    | Stop(v: nat)

  const Empty := Cluster(map[], {}, map[], [])

  ghost predicate Enabled(s: Cluster, e: Step) {
    match e
    case Add(job) => job.id !in s.known
    case Delete(id) => true
    case Scan(v, id, now) => v !in s.visits && id in s.jobs && s.jobs[id].DueAt(now)
    case Check(v, now, next, running) =>
      && v in s.visits && s.visits[v].phase == Scanned
      && now >= s.visits[v].scannedAt
      && (next.Some? ==> next.value > now)
    case TryClaim(v, fault) => v in s.visits && (s.visits[v].phase.Skipping? || s.visits[v].phase.Claiming?)
    case Create(v, created) => v in s.visits && s.visits[v].phase.Won?
    case Stop(v) => true
  }

  function Put(s: Cluster, v: nat, phase: Phase): Cluster
    requires v in s.visits
  {
    s.(visits := s.visits[v := s.visits[v].(phase := phase)])
  }

  function Drop(s: Cluster, v: nat): Cluster {
    s.(visits := s.visits - {v})
  }

  function DoCheck(s: Cluster, v: nat, now: int, next: Option<int>, running: Option<bool>): Cluster
    requires v in s.visits
  {
    if next.None? then Drop(s, v)
    else if s.visits[v].job.policy == Allow then Put(s, v, Claiming(now, next.value))
    else if running.None? then Drop(s, v)
    else if running.value then Put(s, v, Skipping(now, next.value))
    else Put(s, v, Claiming(now, next.value))
  }

  function DoClaim(s: Cluster, v: nat, fault: Fault): Cluster
    requires v in s.visits
  {
    var visit := s.visits[v];
    var id := visit.job.id;
    if visit.job.nextRunAt.None? || !(visit.phase.Skipping? || visit.phase.Claiming?) then s
    else
      var at := visit.Occurrence();
      var holds := ClaimHolds(s.jobs, id, at) && !fault.LostBefore?;
      var after := if holds
                   then s.(jobs := Claimed(s.jobs, id, visit.phase.now, visit.phase.next),
                           log := s.log + [Claim(id, at, visit.phase.Skipping?)])
                   else s;
      if holds && fault.NoFault? && visit.phase.Claiming? then Put(after, v, Won) else Drop(after, v)
  }

  function DoCreate(s: Cluster, v: nat, created: bool): Cluster
    requires v in s.visits
  {
    var job := s.visits[v].job;
    if job.nextRunAt.None? || !created then Drop(s, v)
    else Drop(s.(log := s.log + [Trigger(job.id, job.nextRunAt.value)]), v)
  }

  function Apply(s: Cluster, e: Step): Cluster {
    match e
    case Add(job) => s.(jobs := s.jobs[job.id := job], known := s.known + {job.id})
    case Delete(id) => s.(jobs := s.jobs - {id})
    case Scan(v, id, now) => if id in s.jobs then s.(visits := s.visits[v := Visit(s.jobs[id], now, Scanned)]) else s
    case Check(v, now, next, running) => if v in s.visits then DoCheck(s, v, now, next, running) else s
    case TryClaim(v, fault) => if v in s.visits then DoClaim(s, v, fault) else s
    case Create(v, created) => if v in s.visits then DoCreate(s, v, created) else s
    case Stop(v) => Drop(s, v)
  }

  /** The state after a run that begins in `start`, if each of its steps was enabled. */
  ghost function Exec(start: Cluster, es: seq<Step>): Option<Cluster> {
    if es == [] then Some(start)
    else
      var before := Exec(start, es[..|es| - 1]);
      var e := es[|es| - 1];
      if before.Some? && Enabled(before.value, e) then Some(Apply(before.value, e)) else None
  }

  ghost predicate Reachable(s: Cluster) {
    exists es :: Exec(Empty, es) == Some(s)
  }

  lemma ExecAppend(start: Cluster, es: seq<Step>, e: Step)
    requires Exec(start, es).Some? && Enabled(Exec(start, es).value, e)
    ensures Exec(start, es + [e]) == Some(Apply(Exec(start, es).value, e))
  {
  }

  /** Runs compose. */
  lemma {:induction false} ExecConcat(start: Cluster, es: seq<Step>, fs: seq<Step>)
    requires Exec(start, es).Some? && Exec(Exec(start, es).value, fs).Some?
    ensures Exec(start, es + fs) == Exec(Exec(start, es).value, fs)
  {
    hide Enabled, Apply;
    if fs == [] {
      assert es + fs == es;
    } else {
      var init, e := fs[..|fs| - 1], fs[|fs| - 1];
      ExecConcat(start, es, init);
      assert es + fs == (es + init) + [e];
      ExecAppend(start, es + init, e);
    }
  }

  // ----- the invariant -----

  ghost predicate JobsKnown(s: Cluster) {
    && (forall id | id in s.jobs :: id in s.known && s.jobs[id].id == id)
    && (forall i | 0 <= i < |s.log| :: s.log[i].id in s.known)
  }

  /** Whatever was claimed lies before the job's next run. */
  ghost predicate ClaimsPassed(s: Cluster) {
    forall i | 0 <= i < |s.log| && s.log[i].Claim? && s.log[i].id in s.jobs ::
      s.jobs[s.log[i].id].nextRunAt.Some? && s.log[i].at < s.jobs[s.log[i].id].nextRunAt.value
  }

  predicate VisitOk(known: set<string>, visit: Visit) {
    && visit.job.id in known && visit.job.nextRunAt.Some? && visit.Occurrence() <= visit.scannedAt
    && match visit.phase
       case Skipping(now, next) => visit.scannedAt <= now < next
       case Claiming(now, next) => visit.scannedAt <= now < next
       case _ => true
  }

  ghost predicate VisitsOk(s: Cluster) {
    forall v | v in s.visits :: VisitOk(s.known, s.visits[v])
  }

  /** Later claims of a job are for later occurrences. */
  ghost predicate Increasing(log: seq<Entry>) {
    forall i, j | 0 <= i < j < |log| && log[i].Claim? && log[j].Claim? && log[i].id == log[j].id ::
      log[i].at < log[j].at
  }

  /** Every trigger has its own claim, made before it and not skipped. */
  ghost predicate Earned(log: seq<Entry>) {
    && (forall j | 0 <= j < |log| && log[j].Trigger? :: Claim(log[j].id, log[j].at, false) in log[..j])
    && (forall i, j | 0 <= i < j < |log| && log[i].Trigger? :: log[i] != log[j])
  }

  /** A scheduler that won a claim is the only one, and has not used it yet. */
  ghost predicate WonOnce(s: Cluster) {
    && (forall v | v in s.visits && s.visits[v].phase.Won? ::
          && s.visits[v].job.nextRunAt.Some?
          && Claim(s.visits[v].job.id, s.visits[v].Occurrence(), false) in s.log
          && Trigger(s.visits[v].job.id, s.visits[v].Occurrence()) !in s.log)
    && (forall v, w | v in s.visits && w in s.visits && v != w && s.visits[v].phase.Won? && s.visits[w].phase.Won?
                      && s.visits[v].job.id == s.visits[w].job.id ::
          s.visits[v].job.nextRunAt != s.visits[w].job.nextRunAt)
  }

  ghost predicate Sound(s: Cluster) {
    JobsKnown(s) && ClaimsPassed(s) && VisitsOk(s) && Increasing(s.log) && Earned(s.log) && WonOnce(s)
  }

  // ----- steps -----

  lemma SoundAdd(s: Cluster, job: CronJob)
    requires Sound(s) && job.id !in s.known
    ensures Sound(Apply(s, Add(job)))
  {
  }

  lemma SoundDelete(s: Cluster, id: string)
    requires Sound(s)
    ensures Sound(Apply(s, Delete(id)))
  {
  }

  lemma SoundScan(s: Cluster, v: nat, id: string, now: int)
    requires Sound(s) && v !in s.visits && id in s.jobs && s.jobs[id].DueAt(now)
    ensures Sound(Apply(s, Scan(v, id, now)))
  {
  }

  lemma SoundDrop(s: Cluster, v: nat)
    requires Sound(s)
    ensures Sound(Drop(s, v))
  {
  }

  lemma SoundPut(s: Cluster, v: nat, phase: Phase)
    requires Sound(s) && v in s.visits && (phase.Skipping? || phase.Claiming?)
    requires s.visits[v].scannedAt <= phase.now < phase.next
    ensures Sound(Put(s, v, phase))
  {
  }

  lemma SoundCheck(s: Cluster, v: nat, now: int, next: Option<int>, running: Option<bool>)
    requires Sound(s) && v in s.visits && s.visits[v].phase == Scanned && now >= s.visits[v].scannedAt
    requires next.Some? ==> next.value > now
    ensures Sound(DoCheck(s, v, now, next, running))
  {
    hide Sound, Put, Drop;
    SoundDrop(s, v);
    if next.Some? {
      SoundPut(s, v, Skipping(now, next.value));
      SoundPut(s, v, Claiming(now, next.value));
    }
  }

  /** A committed claim: the occurrence is past every earlier one, and the next run is past it. */
  lemma SoundCommit(s: Cluster, id: string, now: int, next: int, skipped: bool)
    requires Sound(s) && id in s.jobs && s.jobs[id].nextRunAt.Some? && s.jobs[id].nextRunAt.value <= now < next
    ensures
      var r := s.(jobs := Claimed(s.jobs, id, now, next),
                  log := s.log + [Claim(id, s.jobs[id].nextRunAt.value, skipped)]);
      && Sound(r)
      && forall v | v in s.visits && s.visits[v].phase.Won? && s.visits[v].job.id == id ::
           s.visits[v].job.nextRunAt != s.jobs[id].nextRunAt
  {
    CommitEarned(s.log, Claim(id, s.jobs[id].nextRunAt.value, skipped));
    CommitRest(s, id, now, next, skipped);
    hide JobsKnown, ClaimsPassed, Increasing, Earned, VisitsOk;
  }

  lemma CommitEarned(log: seq<Entry>, e: Entry)
    requires Earned(log) && e.Claim?
    ensures Earned(log + [e])
  {
    assert forall j | 0 <= j < |log| :: (log + [e])[..j] == log[..j];
  }

  lemma CommitRest(s: Cluster, id: string, now: int, next: int, skipped: bool)
    requires JobsKnown(s) && ClaimsPassed(s) && Increasing(s.log) && WonOnce(s)
    requires id in s.jobs && s.jobs[id].nextRunAt.Some? && s.jobs[id].nextRunAt.value <= now < next
    ensures
      var r := s.(jobs := Claimed(s.jobs, id, now, next),
                  log := s.log + [Claim(id, s.jobs[id].nextRunAt.value, skipped)]);
      JobsKnown(r) && ClaimsPassed(r) && Increasing(r.log) && WonOnce(r)
  {
  }

  lemma FreshClaim(s: Cluster, id: string)
    requires Sound(s) && id in s.jobs && s.jobs[id].nextRunAt.Some?
    ensures forall e | e in s.log && e.id == id :: e.at < s.jobs[id].nextRunAt.value
  {
  }

  lemma SoundWin(s: Cluster, v: nat)
    requires Sound(s) && v in s.visits && s.visits[v].job.nextRunAt.Some?
    requires
      var id, at := s.visits[v].job.id, s.visits[v].Occurrence();
      && Claim(id, at, false) in s.log && Trigger(id, at) !in s.log
      && forall w | w in s.visits && s.visits[w].phase.Won? && s.visits[w].job.id == id ::
            s.visits[w].job.nextRunAt != Some(at)
    ensures Sound(Put(s, v, Won))
  {
  }

  lemma SoundClaim(s: Cluster, v: nat, fault: Fault)
    requires Sound(s) && v in s.visits && (s.visits[v].phase.Skipping? || s.visits[v].phase.Claiming?)
    ensures Sound(DoClaim(s, v, fault))
  {
    hide JobsKnown, ClaimsPassed, Increasing, Earned, WonOnce;
    var visit := s.visits[v];
    var id, at := visit.job.id, visit.Occurrence();
    SoundDrop(s, v);
    if ClaimHolds(s.jobs, id, at) {
      var skipped := visit.phase.Skipping?;
      var after := s.(jobs := Claimed(s.jobs, id, visit.phase.now, visit.phase.next),
                      log := s.log + [Claim(id, at, skipped)]);
      SoundCommit(s, id, visit.phase.now, visit.phase.next, skipped);
      FreshClaim(s, id);
      SoundDrop(after, v);
      if !skipped {
        assert after.log[|s.log|] == Claim(id, at, false);
        SoundWin(after, v);
      }
    }
  }

  lemma TriggerEarned(log: seq<Entry>, id: string, at: int)
    requires Earned(log) && Claim(id, at, false) in log && Trigger(id, at) !in log
    ensures Earned(log + [Trigger(id, at)])
  {
    var more := log + [Trigger(id, at)];
    assert forall j | 0 <= j < |log| :: more[..j] == log[..j];
    assert more[..|log|] == log;
  }

  lemma TriggerRest(s: Cluster, v: nat)
    requires Sound(s) && v in s.visits && s.visits[v].phase.Won? && s.visits[v].job.nextRunAt.Some?
    ensures
      var log := s.log + [Trigger(s.visits[v].job.id, s.visits[v].Occurrence())];
      var r := Drop(s.(log := log), v);
      JobsKnown(r) && ClaimsPassed(r) && VisitsOk(r) && Increasing(log) && WonOnce(r)
  {
    hide Earned;
  }

  lemma SoundCreate(s: Cluster, v: nat, created: bool)
    requires Sound(s) && v in s.visits && s.visits[v].phase.Won?
    ensures Sound(DoCreate(s, v, created))
  {
    hide JobsKnown, ClaimsPassed, Increasing, Earned;
    SoundDrop(s, v);
    if created {
      TriggerEarned(s.log, s.visits[v].job.id, s.visits[v].Occurrence());
      TriggerRest(s, v);
    }
  }

  lemma SoundStep(s: Cluster, e: Step)
    requires Sound(s) && Enabled(s, e)
    ensures Sound(Apply(s, e))
  {
    hide Sound, DoCheck, DoClaim, DoCreate;
    match e
    case Add(job) => SoundAdd(s, job);
    case Delete(id) => SoundDelete(s, id);
    case Scan(v, id, now) => SoundScan(s, v, id, now);
    case Check(v, now, next, running) => SoundCheck(s, v, now, next, running);
    case TryClaim(v, fault) => SoundClaim(s, v, fault);
    case Create(v, created) => SoundCreate(s, v, created);
    case Stop(v) => SoundDrop(s, v);
  }

  lemma {:induction false} AlwaysSound(es: seq<Step>)
    requires Exec(Empty, es).Some?
    ensures Sound(Exec(Empty, es).value)
  {
    hide Enabled, Apply;
    if es != [] {
      AlwaysSound(es[..|es| - 1]);
      SoundStep(Exec(Empty, es[..|es| - 1]).value, es[|es| - 1]);
    }
  }

  // ----- the theorems -----

  lemma ReachableSound(s: Cluster)
    requires Reachable(s)
    ensures Sound(s)
  {
    hide Sound;
    var es :| Exec(Empty, es) == Some(s);
    AlwaysSound(es);
  }

  /** A claim that commits moves the job's next run strictly forward, past its clock. */
  lemma ClaimMovesForward(s: Cluster, v: nat, fault: Fault)
    requires Reachable(s) && Enabled(s, TryClaim(v, fault))
    ensures
      var r, id := Apply(s, TryClaim(v, fault)), s.visits[v].job.id;
      r.jobs == s.jobs
      || (id in s.jobs && id in r.jobs && s.jobs[id].nextRunAt.Some? && r.jobs[id].nextRunAt.Some?
          && s.jobs[id].nextRunAt.value <= s.visits[v].phase.now < r.jobs[id].nextRunAt.value)
  {
    ReachableSound(s);
  }

  /** Over the whole run: the claimed occurrences of a job increase, so none is claimed twice, and none
      triggers twice. */
  lemma AtMostOneTrigger(s: Cluster)
    requires Reachable(s)
    ensures forall i, j | 0 <= i < j < |s.log| && s.log[i].Claim? && s.log[j].Claim? && s.log[i].id == s.log[j].id ::
              s.log[i].at < s.log[j].at
    ensures forall i, j | 0 <= i < j < |s.log|
                          && s.log[i].Trigger? && s.log[j].Trigger? && s.log[i].id == s.log[j].id ::
              s.log[i].at != s.log[j].at
  {
    ReachableSound(s);
  }

  // ----- counting -----

  function Claims(log: seq<Entry>, id: string): nat {
    if log == [] then 0
    else Claims(log[..|log| - 1], id) + if log[|log| - 1].Claim? && log[|log| - 1].id == id then 1 else 0
  }

  function Skips(log: seq<Entry>, id: string): nat {
    if log == [] then 0
    else Skips(log[..|log| - 1], id)
         + if log[|log| - 1].Claim? && log[|log| - 1].id == id && log[|log| - 1].skipped then 1 else 0
  }

  function Triggers(log: seq<Entry>, id: string): nat {
    if log == [] then 0
    else Triggers(log[..|log| - 1], id) + if log[|log| - 1].Trigger? && log[|log| - 1].id == id then 1 else 0
  }

  /** The schedulers that own an unused claim of the job. */
  function Holders(s: Cluster, id: string): set<nat> {
    set v | v in s.visits && s.visits[v].phase.Won? && s.visits[v].job.id == id
  }

  predicate Balanced(s: Cluster, id: string) {
    Triggers(s.log, id) + Skips(s.log, id) + |Holders(s, id)| <= Claims(s.log, id)
  }

  lemma OneMore(log: seq<Entry>, e: Entry, id: string)
    ensures Claims(log + [e], id) == Claims(log, id) + if e.Claim? && e.id == id then 1 else 0
    ensures Skips(log + [e], id) == Skips(log, id) + if e.Claim? && e.id == id && e.skipped then 1 else 0
    ensures Triggers(log + [e], id) == Triggers(log, id) + if e.Trigger? && e.id == id then 1 else 0
  {
  }

  lemma HoldersDropped(s: Cluster, v: nat, id: string)
    ensures Holders(Drop(s, v), id) == Holders(s, id) - {v}
    ensures |Holders(Drop(s, v), id)| <= |Holders(s, id)|
    ensures v in Holders(s, id) ==> |Holders(Drop(s, v), id)| == |Holders(s, id)| - 1
  {
  }

  lemma HoldersPut(s: Cluster, v: nat, phase: Phase, id: string)
    requires v in s.visits && !s.visits[v].phase.Won?
    ensures |Holders(Put(s, v, phase), id)| == |Holders(s, id)|
            + if phase.Won? && s.visits[v].job.id == id then 1 else 0
  {
    var more := Holders(Put(s, v, phase), id);
    if phase.Won? && s.visits[v].job.id == id {
      assert more == Holders(s, id) + {v};
    } else {
      assert more == Holders(s, id);
    }
  }

  lemma BalancedClaim(s: Cluster, v: nat, fault: Fault, id: string)
    requires Balanced(s, id) && v in s.visits && (s.visits[v].phase.Skipping? || s.visits[v].phase.Claiming?)
    ensures Balanced(DoClaim(s, v, fault), id)
  {
    hide Holders, Claims, Skips, Triggers;
    var visit := s.visits[v];
    HoldersDropped(s, v, id);
    if visit.job.nextRunAt.Some? && ClaimHolds(s.jobs, visit.job.id, visit.Occurrence()) {
      var e := Claim(visit.job.id, visit.Occurrence(), visit.phase.Skipping?);
      var after := s.(jobs := Claimed(s.jobs, visit.job.id, visit.phase.now, visit.phase.next), log := s.log + [e]);
      OneMore(s.log, e, id);
      SameHolders(s, after, id);
      HoldersDropped(after, v, id);
      HoldersPut(after, v, Won, id);
    }
  }

  lemma SameHolders(s: Cluster, r: Cluster, id: string)
    requires r.visits == s.visits
    ensures Holders(r, id) == Holders(s, id)
  {
  }

  lemma BalancedCreate(s: Cluster, v: nat, created: bool, id: string)
    requires Balanced(s, id) && v in s.visits && s.visits[v].phase.Won?
    ensures Balanced(DoCreate(s, v, created), id)
  {
    var job := s.visits[v].job;
    HoldersDropped(s, v, id);
    if job.nextRunAt.Some? && created {
      var e := Trigger(job.id, job.nextRunAt.value);
      OneMore(s.log, e, id);
      var after := s.(log := s.log + [e]);
      assert Holders(after, id) == Holders(s, id);
      HoldersDropped(after, v, id);
    }
  }

  lemma BalancedCheck(s: Cluster, v: nat, now: int, next: Option<int>, running: Option<bool>, id: string)
    requires Balanced(s, id) && v in s.visits && s.visits[v].phase == Scanned
    ensures Balanced(DoCheck(s, v, now, next, running), id)
  {
    hide Holders;
    HoldersDropped(s, v, id);
    if next.Some? {
      HoldersPut(s, v, Skipping(now, next.value), id);
      HoldersPut(s, v, Claiming(now, next.value), id);
    }
  }

  /** No scheduler gains a claim and nothing is logged. */
  lemma BalancedQuiet(s: Cluster, r: Cluster, id: string)
    requires Balanced(s, id) && r.log == s.log
    requires forall v | v in s.visits :: v in r.visits && r.visits[v] == s.visits[v]
    requires forall v | v in r.visits && r.visits[v].phase.Won? :: v in s.visits
    ensures Balanced(r, id)
  {
    assert Holders(r, id) == Holders(s, id);
  }

  lemma BalancedStep(s: Cluster, e: Step, id: string)
    requires Balanced(s, id) && Enabled(s, e)
    ensures Balanced(Apply(s, e), id)
  {
    hide DoCheck, DoClaim, DoCreate, Holders, Claims, Skips, Triggers;
    match e
    case Add(job) => BalancedQuiet(s, Apply(s, e), id);
    case Delete(_) => BalancedQuiet(s, Apply(s, e), id);
    case Scan(v, x, now) => BalancedQuiet(s, Apply(s, e), id);
    case Check(v, now, next, running) => BalancedCheck(s, v, now, next, running, id);
    case TryClaim(v, fault) => BalancedClaim(s, v, fault, id);
    case Create(v, created) => BalancedCreate(s, v, created, id);
    case Stop(v) => HoldersDropped(s, v, id);
  }

  lemma {:induction false} AlwaysBalanced(es: seq<Step>, id: string)
    requires Exec(Empty, es).Some?
    ensures Balanced(Exec(Empty, es).value, id)
  {
    hide Enabled, Apply;
    if es == [] {
      assert Holders(Empty, id) == {};
    } else {
      AlwaysBalanced(es[..|es| - 1], id);
      BalancedStep(Exec(Empty, es[..|es| - 1]).value, es[|es| - 1], id);
    }
  }

  /** The tasks created from a job never exceed its committed claims minus the Forbid skips. */
  lemma TriggersWithinClaims(s: Cluster, id: string)
    requires Reachable(s)
    ensures Triggers(s.log, id) + Skips(s.log, id) <= Claims(s.log, id)
  {
    var es :| Exec(Empty, es) == Some(s);
    AlwaysBalanced(es, id);
  }
}
