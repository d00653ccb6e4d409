/** The worker's fetch loop and its task goroutines around the concurrency semaphore, in every
    interleaving. */
module Backpressure {
  import opened Entities
  import opened Timing

  const MIN_BACKOFF := 100
  const MAX_BACKOFF := 2_000

  /** Where the fetch loop stands: waiting for a permit, holding one while it dequeues, sleeping after an
      error, waiting out an empty queue, or gone. */
  datatype Place = Selecting | Holding | Sleeping | Waiting | Exited

  /** A task goroutine: processTask runs, or its permit is returned and wg.Done is next. */
  datatype Goroutine = Processing | Finishing

  datatype Pool = Pool(
    place: Place,
    sem: nat,                          // occupied slots of the channel
    tasks: map<nat, Goroutine>,
    wg: int,
    backoff: int,
    acquired: nat,
    released: nat,
    empties: nat)                      // empty dequeues since the last task

  datatype Event =
    | Acquire
    | Stop
    | DequeueFails(stopped: bool)
    | DequeueEmpty
    | DequeueTask(g: nat)
    | Wake
    | Release(g: nat)
    | Done(g: nat)

  const Start := Pool(Selecting, 0, map[], 0, MIN_BACKOFF, 0, 0, 0)

  predicate Enabled(concurrency: nat, s: Pool, e: Event) {
    match e
    case Acquire => s.place == Selecting && s.sem < concurrency
    case Stop => s.place == Selecting || s.place == Waiting
    case DequeueFails(_) => s.place == Holding && s.sem > 0
    case DequeueEmpty => s.place == Holding && s.sem > 0
    case DequeueTask(g) => s.place == Holding && g !in s.tasks
    case Wake => s.place == Waiting || s.place == Sleeping
    case Release(g) => g in s.tasks && s.tasks[g] == Processing && s.sem > 0
    case Done(g) => g in s.tasks && s.tasks[g] == Finishing
  }

  function Returned(s: Pool): Pool {
    s.(sem := if s.sem > 0 then s.sem - 1 else 0, released := s.released + 1)
  }

  function Apply(s: Pool, e: Event): Pool {
    match e
    case Acquire => s.(place := Holding, sem := s.sem + 1, acquired := s.acquired + 1)
    case Stop => s.(place := Exited)
    case DequeueFails(stopped) => Returned(s).(place := if stopped then Exited else Sleeping)
    case DequeueEmpty => Returned(s).(place := Waiting)
    case DequeueTask(g) => s.(place := Selecting, backoff := MIN_BACKOFF, empties := 0,
                          tasks := s.tasks[g := Processing], wg := s.wg + 1)
    case Wake =>
      if s.place == Waiting
      then s.(place := Selecting, backoff := if s.backoff < MAX_BACKOFF then s.backoff * 2 else s.backoff,
              empties := s.empties + 1)
      else s.(place := Selecting)
    case Release(g) => Returned(s).(tasks := s.tasks[g := Finishing])
    case Done(g) => s.(tasks := s.tasks - {g}, wg := s.wg - 1)
  }

  function Exec(concurrency: nat, es: seq<Event>): Option<Pool> {
    if es == [] then Some(Start)
    else
      var before := Exec(concurrency, es[..|es| - 1]);
      var e := es[|es| - 1];
      if before.Some? && Enabled(concurrency, before.value, e) then Some(Apply(before.value, e)) else None
  }

  /** The goroutines that have not returned their permit. */
  function Busy(tasks: map<nat, Goroutine>): set<nat> {
    set g | g in tasks && tasks[g] == Processing
  }

  function OwnHold(s: Pool): nat {
    if s.place == Holding then 1 else 0
  }

  /** The idle wait after k empty dequeues in a row. */
  function IdleBackoff(k: nat): int {
    MIN_BACKOFF * Pow2(if k < 5 then k else 5)
  }

  predicate Accounted(concurrency: nat, s: Pool) {
    && s.sem == |Busy(s.tasks)| + OwnHold(s)
    && s.sem <= concurrency
    && s.acquired == s.released + s.sem
    && s.wg == |s.tasks|
    && s.backoff == IdleBackoff(s.empties)
  }

  lemma BusyStarts(tasks: map<nat, Goroutine>, g: nat)
    requires g !in tasks
    ensures |Busy(tasks[g := Processing])| == |Busy(tasks)| + 1 && |tasks[g := Processing]| == |tasks| + 1
  {
    assert Busy(tasks[g := Processing]) == Busy(tasks) + {g};
    assert tasks[g := Processing].Keys == tasks.Keys + {g};
  }

  lemma BusyReleases(tasks: map<nat, Goroutine>, g: nat)
    requires g in tasks && tasks[g] == Processing
    ensures |Busy(tasks[g := Finishing])| == |Busy(tasks)| - 1 && |tasks[g := Finishing]| == |tasks|
  {
    assert g in Busy(tasks);
    assert Busy(tasks[g := Finishing]) == Busy(tasks) - {g};
    assert tasks[g := Finishing].Keys == tasks.Keys;
  }

  lemma BusyEnds(tasks: map<nat, Goroutine>, g: nat)
    requires g in tasks && tasks[g] == Finishing
    ensures |Busy(tasks - {g})| == |Busy(tasks)| && |tasks - {g}| == |tasks| - 1
  {
    assert Busy(tasks - {g}) == Busy(tasks);
    assert (tasks - {g}).Keys == tasks.Keys - {g};
  }

  lemma IdleDoubles(k: nat)
    ensures IdleBackoff(k + 1) == if IdleBackoff(k) < MAX_BACKOFF then IdleBackoff(k) * 2 else IdleBackoff(k)
    ensures MIN_BACKOFF <= IdleBackoff(k) <= 3_200 < 2 * MAX_BACKOFF
  {
    assert Pow2(0) == 1 && Pow2(1) == 2 && Pow2(2) == 4 && Pow2(3) == 8 && Pow2(4) == 16 && Pow2(5) == 32;
    assert k == 0 || k == 1 || k == 2 || k == 3 || k == 4 || k >= 5;
  }

  /** A step of the loop that starts or ends no goroutine. */
  lemma AccountedLoop(concurrency: nat, s: Pool, e: Event)
    requires Accounted(concurrency, s) && Enabled(concurrency, s, e)
    requires !e.DequeueTask? && !e.Release? && !e.Done?
    ensures Accounted(concurrency, Apply(s, e))
  {
    hide Busy, IdleBackoff;
    if e.Wake? {
      IdleDoubles(s.empties);
    }
  }

  lemma AccountedStep(concurrency: nat, s: Pool, e: Event)
    requires Accounted(concurrency, s) && Enabled(concurrency, s, e)
    ensures Accounted(concurrency, Apply(s, e))
  {
    hide Busy, IdleBackoff;
    if e.DequeueTask? {
      BusyStarts(s.tasks, e.g);
      IdleStart();
    } else if e.Release? {
      BusyReleases(s.tasks, e.g);
    } else if e.Done? {
      BusyEnds(s.tasks, e.g);
    } else {
      AccountedLoop(concurrency, s, e);
    }
  }

  lemma IdleStart()
    ensures IdleBackoff(0) == MIN_BACKOFF
  {
  }

  /** In every interleaving: occupied slots are the busy goroutines plus the loop's own hold and stay
      within the limit; every permit taken is held or was returned once; the idle wait doubles from
      100 ms and stops at 3.2 s, below twice the nominal maximum. */
  lemma {:induction false} AlwaysAccounted(concurrency: nat, es: seq<Event>)
    requires Exec(concurrency, es).Some?
    ensures
      var s := Exec(concurrency, es).value;
      && s.sem == |Busy(s.tasks)| + OwnHold(s) <= concurrency
      && s.acquired == s.released + s.sem
      && s.wg == |s.tasks|
      && s.backoff == IdleBackoff(s.empties) && MIN_BACKOFF <= s.backoff <= 3_200 < 2 * MAX_BACKOFF
  {
    hide Enabled, Apply;
    if es == [] {
      assert Busy(Start.tasks) == {};
      IdleStart();
    } else {
      AlwaysAccounted(concurrency, es[..|es| - 1]);
      AccountedStep(concurrency, Exec(concurrency, es[..|es| - 1]).value, es[|es| - 1]);
      IdleDoubles(Exec(concurrency, es).value.empties);
    }
  }

  /** Returning a permit never blocks, and the loop can go on as soon as fewer than `concurrency`
      goroutines are busy. */
  lemma NeverStuck(concurrency: nat, es: seq<Event>)
    requires Exec(concurrency, es).Some?
    ensures
      var s := Exec(concurrency, es).value;
      && (forall g | g in s.tasks && s.tasks[g] == Processing :: Enabled(concurrency, s, Release(g)))
      && (s.place == Holding ==> Enabled(concurrency, s, DequeueEmpty))
      && (s.place == Selecting ==> (Enabled(concurrency, s, Acquire) <==> |Busy(s.tasks)| < concurrency))
  {
    AlwaysAccounted(concurrency, es);
    var s := Exec(concurrency, es).value;
    forall g | g in s.tasks && s.tasks[g] == Processing ensures s.sem > 0 {
      assert g in Busy(s.tasks);
    }
  }

  predicate Leaves(e: Event) {
    e.Stop? || (e.DequeueFails? && e.stopped)
  }

  /** The fetch loop is gone exactly after a stop, while it waited or in the error of its dequeue. */
  lemma {:induction false} ExitedIff(concurrency: nat, es: seq<Event>)
    requires Exec(concurrency, es).Some?
    ensures Exec(concurrency, es).value.place == Exited <==> exists e :: e in es && Leaves(e)
  {
    if es != [] {
      var init, e := es[..|es| - 1], es[|es| - 1];
      ExitedIff(concurrency, init);
      assert es == init + [e];
      if Leaves(e) {
        assert e in es;
      }
      forall x | x in init && Leaves(x) ensures x in es {
      }
    }
  }

  /** When the loop has left and the wait group is at zero, every permit is back. */
  lemma AllReturned(concurrency: nat, es: seq<Event>)
    requires Exec(concurrency, es).Some? && Exec(concurrency, es).value.place == Exited
    requires Exec(concurrency, es).value.wg == 0
    ensures Exec(concurrency, es).value.sem == 0
    ensures Exec(concurrency, es).value.acquired == Exec(concurrency, es).value.released
  {
    AlwaysAccounted(concurrency, es);
    assert Exec(concurrency, es).value.tasks.Keys == {};
    assert Busy(Exec(concurrency, es).value.tasks) == {};
  }
}
