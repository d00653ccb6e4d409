/** The concurrency policy over whole runs of the cluster: a Forbid job is triggered only if the check of that very
    visit found none of its tasks running, and skipped only if it found one. */
module CronPolicy {
  import opened Entities
  import opened TaskTable
  import opened Cron

  /** The job may run, given what the check for its running tasks said (None: it failed). */
  predicate Admits(job: CronJob, running: Option<bool>) {
    job.policy == Allow || running == Some(false)
  }

  /** The occurrence is to be skipped. */
  predicate Suppresses(job: CronJob, running: Option<bool>) {
    job.policy == Forbid && running == Some(true)
  }

  /** What the last check on visit v said, if there was one. */
  function LastCheck(es: seq<Step>, v: nat): Option<Option<bool>> {
    if es == [] then None
    else
      match es[|es| - 1]
      case Check(w, _, _, running) => if w == v then Some(running) else LastCheck(es[..|es| - 1], v)
      case _ => LastCheck(es[..|es| - 1], v)
  }

  predicate Follows(visit: Visit, last: Option<Option<bool>>) {
    match visit.phase
    case Scanned => true
    case Skipping(_, _) => last.Some? && Suppresses(visit.job, last.value)
    case Claiming(_, _) => last.Some? && Admits(visit.job, last.value)
    case Won => last.Some? && Admits(visit.job, last.value)
  }

  /** A check decides between claim, skip and nothing. */
  lemma CheckDecides(s: Cluster, v: nat, now: int, next: Option<int>, running: Option<bool>)
    requires v in s.visits
    ensures
      var job, r := s.visits[v].job, DoCheck(s, v, now, next, running);
      && (forall w | w in r.visits && w != v :: w in s.visits && r.visits[w] == s.visits[w])
      && if next.Some? && Admits(job, running)
         then v in r.visits && r.visits[v] == s.visits[v].(phase := Claiming(now, next.value))
         else if next.Some? && Suppresses(job, running)
         then v in r.visits && r.visits[v] == s.visits[v].(phase := Skipping(now, next.value))
         else v !in r.visits
  {
  }

  lemma FollowsStep(s: Cluster, es: seq<Step>, e: Step, v: nat)
    requires Enabled(s, e) && (v in s.visits ==> Follows(s.visits[v], LastCheck(es, v)))
    ensures v in Apply(s, e).visits ==> Follows(Apply(s, e).visits[v], LastCheck(es + [e], v))
  {
    assert (es + [e])[..|es|] == es;
    if e.Check? {
      CheckDecides(s, e.v, e.now, e.next, e.running);
    }
  }

  lemma {:induction false} AlwaysFollows(es: seq<Step>, v: nat)
    requires Exec(Empty, es).Some?
    ensures
      var s := Exec(Empty, es).value;
      v in s.visits ==> Follows(s.visits[v], LastCheck(es, v))
  {
    hide Enabled, Apply, Follows, LastCheck;
    if es != [] {
      var init := es[..|es| - 1];
      AlwaysFollows(init, v);
      FollowsStep(Exec(Empty, init).value, init, es[|es| - 1], v);
      assert es == init + [es[|es| - 1]];
    }
  }

  /** In every run: a task is created for a visit only if the job allows overlap, or the check of this visit found
      no running task; and it is for the occurrence that was scanned. */
  lemma TriggersAdmitted(es: seq<Step>, v: nat, created: bool)
    requires Exec(Empty, es).Some? && Enabled(Exec(Empty, es).value, Create(v, created))
    ensures
      var s := Exec(Empty, es).value;
      var job, log := s.visits[v].job, Apply(s, Create(v, created)).log;
      && LastCheck(es, v).Some? && Admits(job, LastCheck(es, v).value) && job.nextRunAt.Some?
      && log == if created then s.log + [Trigger(job.id, job.nextRunAt.value)] else s.log
  {
    hide Exec, LastCheck;
    AlwaysFollows(es, v);
    HasOccurrence(es, v);
  }

  /** A committed claim is a skip exactly if the job forbids overlap and the check found a running task; otherwise
      the visit was admitted. */
  lemma ClaimsFollowPolicy(es: seq<Step>, v: nat, fault: Fault)
    requires Exec(Empty, es).Some? && Enabled(Exec(Empty, es).value, TryClaim(v, fault))
    ensures
      var s := Exec(Empty, es).value;
      var job, log := s.visits[v].job, Apply(s, TryClaim(v, fault)).log;
      LastCheck(es, v).Some? && job.nextRunAt.Some?
      && (log == s.log
          || (log == s.log + [Claim(job.id, job.nextRunAt.value, true)] && Suppresses(job, LastCheck(es, v).value))
          || (log == s.log + [Claim(job.id, job.nextRunAt.value, false)] && Admits(job, LastCheck(es, v).value)))
  {
    hide Exec, LastCheck;
    AlwaysFollows(es, v);
    HasOccurrence(es, v);
  }

  lemma HasOccurrence(es: seq<Step>, v: nat)
    requires Exec(Empty, es).Some? && v in Exec(Empty, es).value.visits
    ensures Exec(Empty, es).value.visits[v].job.nextRunAt.Some?
  {
    hide Exec, JobsKnown, ClaimsPassed, Increasing, Earned, WonOnce;
    AlwaysSound(es);
  }
}
